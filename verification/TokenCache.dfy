/** TokenCache.Get and Close: double-checked locking on a read-write lock, with a
    time to live. The class is one caller alone; the state machine interleaves any
    number of callers, one memory access or lock operation at a time. */
module TokenCache {
  import opened Json

  /** What the refresh callback answers. For Tower it also carries the token's id. */
  datatype Refresh = Fresh(token: string, id: int, ttl: nat) | RefreshFailed

  /** The cached fields, tokenID being the one the Tower closures keep beside the cache. */
  datatype Cache = Cache(token: string, expiry: int, tokenID: int)

  predicate Usable(c: Cache, now: int)
  {
    c.token != "" && now < c.expiry
  }

  // ------------------------------------------------------------- one caller

  /** Get, alone: the cached token while it is usable, otherwise what refresh answers. */
  function GetAlone(c: Cache, now: int, answer: Refresh, later: int): (Cache, Option<string>)
  {
    if Usable(c, now) then (c, Some(c.token))
    else if answer.RefreshFailed? then (c, None)
    else (Cache(answer.token, later + answer.ttl, answer.id), Some(answer.token))
  }

  class TokenCache {
    var cache: Cache
    const hasCleanup: bool

    constructor (hasCleanup: bool)
      ensures cache == Cache("", 0, 0) && this.hasCleanup == hasCleanup
    {
      this.cache := Cache("", 0, 0);
      this.hasCleanup := hasCleanup;
    }

    /** The clock reads now at the checks and later once refresh has answered. */
    method Get(now: int, answer: Refresh, later: int) returns (token: Option<string>)
      modifies this
      ensures (cache, token) == GetAlone(old(cache), now, answer, later)
    {
      if cache.token != "" && now < cache.expiry {
        return Some(cache.token);
      }
      if cache.token != "" && now < cache.expiry {
        return Some(cache.token);
      }
      match answer
      case RefreshFailed =>
        return None;
      case Fresh(got, id, ttl) =>
        cache := cache.(tokenID := id);
        cache := cache.(token := got);
        cache := cache.(expiry := later + ttl);
        return Some(got);
    }

    /** deleted is the id handed to the server, if any; the token is forgotten even if that fails. */
    method Close() returns (deleted: Option<int>)
      modifies this
      ensures cache == old(cache).(token := "")
      ensures deleted == if hasCleanup && old(cache).token != "" && old(cache).tokenID > 0
                         then Some(old(cache).tokenID) else None
    {
      deleted := None;
      if hasCleanup && cache.token != "" {
        if cache.tokenID > 0 {
          deleted := Some(cache.tokenID);
        }
        cache := cache.(token := "");
        return;
      }
      cache := cache.(token := "");
    }
  }

  // ----------------------------------------------------------- many callers

  /** Where a caller is. Shared points hold the read lock, Locked ones the write lock. */
  datatype Pc =
    | Idle
    | WantShared                                        // Get called
    | SharedCheck                                       // about to look at the cache
    | SharedRead(checkedAt: int)                        // found it usable, about to read the token
    | SharedDone(result: string)                        // about to RUnlock and return
    | SharedMiss                                        // about to RUnlock and go on
    | WantLock                                          // about to Lock
    | LockedCheck
    | Refreshing(checkedAt: int)                        // the refresh callback is running
    | GotId(checkedAt: int, got: string, ttl: nat)    // the callback has set tokenID
    | StoredToken(checkedAt: int, got: string, ttl: nat)
    | LockedDone(answer: Option<string>)                // about to Unlock and return
    | WantClose
    | Closing
    | Cleaned                                           // cleanup has returned

  predicate IsShared(pc: Pc)
  {
    pc.SharedCheck? || pc.SharedRead? || pc.SharedDone? || pc.SharedMiss?
  }

  predicate IsLocked(pc: Pc)
  {
    pc.LockedCheck? || pc.Refreshing? || pc.GotId? || pc.StoredToken? || pc.LockedDone? || pc.Closing? || pc.Cleaned?
  }

  /** A refresh is in progress from the call of the callback until its result is stored. */
  predicate InRefresh(pc: Pc)
  {
    pc.Refreshing? || pc.GotId? || pc.StoredToken?
  }

  /** What an observer could write down. */
  datatype Event =
    | Refreshed(token: string, id: int, expiry: int, checkedAt: int)
    | Served(token: string, checkedAt: int)             // returned without a refresh
    | Deleted(token: string, id: int)                   // cleanup deleted id for token
    | Closed

  datatype State = State(
    cache: Cache, now: int, readers: set<nat>, writer: Option<nat>, pcs: map<nat, Pc>,
    hasCleanup: bool, log: seq<Event>)

  function PcOf(s: State, t: nat): Pc
  {
    if t in s.pcs then s.pcs[t] else Idle
  }

  function Goto(s: State, t: nat, pc: Pc): State
  {
    s.(pcs := s.pcs[t := pc])
  }

  datatype Step =
    | Tick(passed: nat)
    | CallGet(t: nat) | CallClose(t: nat)
    | RLock(t: nat) | Check(t: nat) | ReadShared(t: nat) | RUnlock(t: nat)
    | Lock(t: nat) | Answer(t: nat, answer: Refresh) | StoreToken(t: nat) | StoreExpiry(t: nat)
    | Cleanup(t: nat) | Forget(t: nat) | Unlock(t: nat)

  predicate Enabled(s: State, step: Step)
  {
    match step
    case Tick(_) => true
    case CallGet(t) => PcOf(s, t).Idle?
    case CallClose(t) => PcOf(s, t).Idle?
    case RLock(t) => PcOf(s, t).WantShared? && s.writer.None?
    case Check(t) => PcOf(s, t).SharedCheck? || PcOf(s, t).LockedCheck?
    case ReadShared(t) => PcOf(s, t).SharedRead?
    case RUnlock(t) => PcOf(s, t).SharedDone? || PcOf(s, t).SharedMiss?
    case Lock(t) => (PcOf(s, t).WantLock? || PcOf(s, t).WantClose?) && s.writer.None? && s.readers == {}
    case Answer(t, _) => PcOf(s, t).Refreshing?
    case StoreToken(t) => PcOf(s, t).GotId?
    case StoreExpiry(t) => PcOf(s, t).StoredToken?
    case Cleanup(t) => PcOf(s, t).Closing? && s.hasCleanup && s.cache.token != ""
    case Forget(t) => PcOf(s, t).Cleaned? || (PcOf(s, t).Closing? && !(s.hasCleanup && s.cache.token != ""))
    case Unlock(t) => PcOf(s, t).LockedDone?
  }

  function Apply(s: State, step: Step): State
    requires Enabled(s, step)
  {
    match step
    case Tick(passed) => s.(now := s.now + passed)
    case CallGet(t) => Goto(s, t, WantShared)
    case CallClose(t) => Goto(s, t, WantClose)
    case RLock(t) => Goto(s, t, SharedCheck).(readers := s.readers + {t})
    case Check(t) =>
      if PcOf(s, t).SharedCheck? then
        Goto(s, t, if Usable(s.cache, s.now) then SharedRead(s.now) else SharedMiss)
      else if Usable(s.cache, s.now) then
        Goto(s, t, LockedDone(Some(s.cache.token))).(log := s.log + [Served(s.cache.token, s.now)])
      else
        Goto(s, t, Refreshing(s.now))
    case ReadShared(t) =>
      Goto(s, t, SharedDone(s.cache.token)).(log := s.log + [Served(s.cache.token, PcOf(s, t).checkedAt)])
    case RUnlock(t) =>
      Goto(s, t, if PcOf(s, t).SharedMiss? then WantLock else Idle).(readers := s.readers - {t})
    case Lock(t) =>
      Goto(s, t, if PcOf(s, t).WantLock? then LockedCheck else Closing).(writer := Some(t))
    case Answer(t, answer) =>
      (match answer
       case RefreshFailed => Goto(s, t, LockedDone(None))
       case Fresh(got, id, ttl) =>
         Goto(s, t, GotId(PcOf(s, t).checkedAt, got, ttl)).(cache := s.cache.(tokenID := id)))
    case StoreToken(t) =>
      var pc := PcOf(s, t);
      Goto(s, t, StoredToken(pc.checkedAt, pc.got, pc.ttl)).(cache := s.cache.(token := pc.got))
    case StoreExpiry(t) =>
      var pc := PcOf(s, t);
      var cache := s.cache.(expiry := s.now + pc.ttl);
      Goto(s, t, LockedDone(Some(pc.got)))
        .(cache := cache, log := s.log + [Refreshed(cache.token, cache.tokenID, cache.expiry, pc.checkedAt)])
    case Cleanup(t) =>
      Goto(s, t, Cleaned)
        .(log := if s.cache.tokenID > 0 then s.log + [Deleted(s.cache.token, s.cache.tokenID)] else s.log)
    case Forget(t) =>
      Goto(s, t, LockedDone(None)).(cache := s.cache.(token := ""), log := s.log + [Closed])
    case Unlock(t) => Goto(s, t, Idle).(writer := None)
  }

  function Initial(hasCleanup: bool, now: int): State
  {
    State(Cache("", 0, 0), now, {}, None, map[], hasCleanup, [])
  }

  /** steps can be taken one after the other, leading from s to r. */
  ghost predicate Leads(s: State, steps: seq<Step>, r: State)
    decreases |steps|
  {
    if steps == [] then r == s
    else Enabled(s, steps[0]) && Leads(Apply(s, steps[0]), steps[1..], r)
  }

  // ------------------------------------------------------------- the invariant

  /** The cached fields that the events of log amount to; None before the first refresh and after a Close. */
  function Standing(log: seq<Event>): Option<Cache>
  {
    if log == [] then None
    else
      match log[|log| - 1]
      case Refreshed(token, id, expiry, _) => Some(Cache(token, expiry, id))
      case Closed => None
      case _ => Standing(log[..|log| - 1])
  }

  /** At checkedAt the cache in force was no longer of use. */
  predicate Useless(r: Option<Cache>, checkedAt: int)
  {
    r.None? || !Usable(r.value, checkedAt)
  }

  /** e may happen when the events so far are log. */
  predicate Justified(log: seq<Event>, e: Event)
  {
    var r := Standing(log);
    match e
    case Refreshed(_, _, _, checkedAt) => Useless(r, checkedAt)
    case Served(token, checkedAt) => r.Some? && Usable(r.value, checkedAt) && r.value.token == token
    case Deleted(token, id) => r.Some? && token != "" && r.value.token == token && r.value.tokenID == id
    case Closed => true
  }

  ghost predicate LogJustified(log: seq<Event>)
  {
    forall j :: 0 <= j < |log| ==> Justified(log[..j], log[j])
  }

  /** Caller t holds the locks its place calls for. */
  predicate HoldsItsLocks(s: State, t: nat)
  {
    && (t in s.readers <==> IsShared(PcOf(s, t)))
    && (s.writer == Some(t) <==> IsLocked(PcOf(s, t)))
  }

  ghost predicate LocksHeld(s: State)
  {
    && (forall t: nat :: HoldsItsLocks(s, t))
    && (s.writer.Some? ==> s.readers == {})
  }

  /** The cache holds the token in force, except between the stores of a refresh. */
  ghost predicate CacheStands(s: State)
  {
    var r := Standing(s.log);
    var pc := if s.writer.Some? then PcOf(s, s.writer.value) else Idle;
    if pc.StoredToken? then s.cache.token == pc.got
    else if r.None? then s.cache.token == ""
    else if pc.GotId? then s.cache == r.value.(tokenID := s.cache.tokenID)
    else s.cache == r.value
  }

  /** What a caller has seen still holds, or held at checkedAt. */
  ghost predicate Remembers(s: State, pc: Pc)
  {
    match pc
    case SharedRead(checkedAt) => Usable(s.cache, checkedAt)
    case Refreshing(checkedAt) => Useless(Standing(s.log), checkedAt)
    case GotId(checkedAt, _, _) => Useless(Standing(s.log), checkedAt)
    case StoredToken(checkedAt, _, _) => Useless(Standing(s.log), checkedAt)
    case Cleaned => s.cache.token != ""
    case _ => true
  }

  ghost predicate Inv(s: State)
  {
    && LocksHeld(s) && CacheStands(s) && LogJustified(s.log)
    && forall t: nat :: Remembers(s, PcOf(s, t))
  }

  lemma LogAppend(log: seq<Event>, e: Event)
    requires LogJustified(log) && Justified(log, e)
    ensures LogJustified(log + [e])
  {
    forall j | 0 <= j < |log + [e]| ensures Justified((log + [e])[..j], (log + [e])[j]) {
      if j < |log| {
        assert (log + [e])[..j] == log[..j];
      } else {
        assert (log + [e])[..j] == log;
      }
    }
  }

  lemma StandingAppend(log: seq<Event>, e: Event)
    ensures Standing(log + [e]) == if e.Refreshed? then Some(Cache(e.token, e.expiry, e.id)) else if e.Closed? then None else Standing(log)
  {
    assert (log + [e])[..|log|] == log;
  }

  lemma InitialInv(hasCleanup: bool, now: int)
    ensures Inv(Initial(hasCleanup, now))
  {
  }

  /** The caller who takes a step; nobody does when time passes. */
  function Actor(step: Step): Option<nat>
  {
    match step
    case Tick(_) => None
    case CallGet(t) => Some(t)
    case CallClose(t) => Some(t)
    case RLock(t) => Some(t)
    case Check(t) => Some(t)
    case ReadShared(t) => Some(t)
    case RUnlock(t) => Some(t)
    case Lock(t) => Some(t)
    case Answer(t, _) => Some(t)
    case StoreToken(t) => Some(t)
    case StoreExpiry(t) => Some(t)
    case Cleanup(t) => Some(t)
    case Forget(t) => Some(t)
    case Unlock(t) => Some(t)
  }

  /** The others stay where they are. */
  lemma OthersStay(s: State, step: Step, u: nat)
    requires Enabled(s, step) && Actor(step) != Some(u)
    ensures PcOf(Apply(s, step), u) == PcOf(s, u)
  {
  }

  /** Who holds which lock changes only at the lock operations, and only for the actor. */
  lemma LocksMove(s: State, step: Step)
    requires Enabled(s, step)
    ensures Apply(s, step).readers ==
            if step.RLock? then s.readers + {step.t} else if step.RUnlock? then s.readers - {step.t} else s.readers
    ensures Apply(s, step).writer == if step.Lock? then Some(step.t) else if step.Unlock? then None else s.writer
  {
  }

  /** The kind of the actor's place changes only at the lock operations. */
  lemma ActorMoves(s: State, step: Step)
    requires Enabled(s, step) && Actor(step).Some?
    ensures var t := Actor(step).value;
            var was, now := PcOf(s, t), PcOf(Apply(s, step), t);
            && IsShared(now) == (step.RLock? || (IsShared(was) && !step.RUnlock?))
            && IsLocked(now) == (step.Lock? || (IsLocked(was) && !step.Unlock?))
            && (step.RUnlock? ==> IsShared(was)) && (step.Unlock? ==> IsLocked(was))
  {
  }

  lemma LocksStep(s: State, step: Step)
    requires LocksHeld(s) && Enabled(s, step)
    ensures LocksHeld(Apply(s, step))
  {
    LocksMove(s, step);
    forall u: nat ensures HoldsItsLocks(Apply(s, step), u) {
      hide Apply;
      assert HoldsItsLocks(s, u);
      if Actor(step).Some? {
        ActorMoves(s, step);
        assert HoldsItsLocks(s, Actor(step).value);
      }
      if Actor(step) != Some(u) {
        OthersStay(s, step, u);
      }
    }
    assert step.Lock? ==> s.readers == {};
    assert step.RLock? ==> s.writer.None?;
  }

  /** The log: every event is justified by the refresh in force. */
  lemma LogStep(s: State, step: Step)
    requires Inv(s) && Enabled(s, step)
    ensures LogJustified(Apply(s, step).log)
  {
    var r := Apply(s, step);
    if r.log != s.log {
      var e := r.log[|r.log| - 1];
      assert r.log == s.log + [e];
      ActorSees(s, step);
      LogAppend(s.log, e);
    }
  }

  /** What a step may rely on: the actor's locks, and what the actor remembers. */
  lemma ActorSees(s: State, step: Step)
    requires Inv(s) && Enabled(s, step) && Actor(step).Some?
    ensures HoldsItsLocks(s, Actor(step).value) && Remembers(s, PcOf(s, Actor(step).value))
    ensures IsShared(PcOf(s, Actor(step).value)) ==> s.writer.None?
  {
  }

  /** Only storing an expiry and forgetting the token change what is in force. */
  lemma StandingStep(s: State, step: Step)
    requires Enabled(s, step)
    ensures Standing(Apply(s, step).log) ==
            if step.StoreExpiry? then Some(Apply(s, step).cache) else if step.Forget? then None else Standing(s.log)
  {
    var r := Apply(s, step);
    if r.log != s.log {
      StandingAppend(s.log, r.log[|r.log| - 1]);
      assert r.log == s.log + [r.log[|r.log| - 1]];
    }
  }

  lemma CacheStep(s: State, step: Step)
    requires Inv(s) && Enabled(s, step)
    ensures CacheStands(Apply(s, step))
  {
    StandingStep(s, step);
    LocksMove(s, step);
    if Actor(step).Some? {
      ActorSees(s, step);
      if s.writer.Some? && s.writer != Actor(step) {
        OthersStay(s, step, s.writer.value);
      }
    }
  }

  /** Whoever changes the cache or what is in force holds the write lock. */
  lemma OnlyTheWriterWrites(s: State, step: Step)
    requires Enabled(s, step)
    requires Actor(step).None? || !IsLocked(PcOf(s, Actor(step).value))
    ensures Apply(s, step).cache == s.cache && Standing(Apply(s, step).log) == Standing(s.log)
  {
    StandingStep(s, step);
  }

  lemma ActorRemembers(s: State, step: Step)
    requires Inv(s) && Enabled(s, step) && Actor(step).Some?
    ensures Remembers(Apply(s, step), PcOf(Apply(s, step), Actor(step).value))
  {
    StandingStep(s, step);
    ActorSees(s, step);
  }

  lemma OthersRemember(s: State, step: Step, u: nat)
    requires Inv(s) && Enabled(s, step) && Actor(step) != Some(u)
    ensures Remembers(Apply(s, step), PcOf(Apply(s, step), u))
  {
    hide Apply, Enabled, LogJustified, CacheStands;
    OthersStay(s, step, u);
    assert Remembers(s, PcOf(s, u)) && HoldsItsLocks(s, u);
    if Actor(step).None? || !IsLocked(PcOf(s, Actor(step).value)) {
      OnlyTheWriterWrites(s, step);
    } else {
      assert HoldsItsLocks(s, Actor(step).value);
    }
  }

  lemma InvStep(s: State, step: Step)
    requires Inv(s) && Enabled(s, step)
    ensures Inv(Apply(s, step))
  {
    LocksStep(s, step);
    LogStep(s, step);
    CacheStep(s, step);
    forall t: nat ensures Remembers(Apply(s, step), PcOf(Apply(s, step), t)) {
      if Actor(step) == Some(t) {
        ActorRemembers(s, step);
      } else {
        OthersRemember(s, step, t);
      }
    }
  }

  lemma {:induction false} InvAlways(s: State, steps: seq<Step>, r: State)
    requires Inv(s) && Leads(s, steps, r)
    ensures Inv(r)
    decreases |steps|
  {
    if steps != [] {
      InvStep(s, steps[0]);
      InvAlways(Apply(s, steps[0]), steps[1..], r);
    }
  }

  // ------------------------------------------------------- over all interleavings

  /** However callers are interleaved, two callers are never in a refresh at once. */
  lemma OneRefreshAtATime(hasCleanup: bool, now: int, steps: seq<Step>, r: State, t: nat, u: nat)
    requires Leads(Initial(hasCleanup, now), steps, r)
    requires InRefresh(PcOf(r, t)) && InRefresh(PcOf(r, u))
    ensures t == u && r.writer == Some(t) && r.readers == {}
  {
    InitialInv(hasCleanup, now);
    InvAlways(Initial(hasCleanup, now), steps, r);
    assert HoldsItsLocks(r, t) && HoldsItsLocks(r, u);
  }

  /** Neither a refresh nor a Close strictly between i and j. */
  ghost predicate Quiet(log: seq<Event>, i: nat, j: nat)
    requires j <= |log|
  {
    forall k :: i < k < j ==> !log[k].Refreshed? && !log[k].Closed?
  }

  lemma {:induction false} StandingAfter(log: seq<Event>, i: nat)
    requires i < |log| && log[i].Refreshed? && Quiet(log, i, |log|)
    ensures Standing(log) == Some(Cache(log[i].token, log[i].expiry, log[i].id))
    decreases |log|
  {
    if i < |log| - 1 {
      StandingAfter(log[..|log| - 1], i);
    }
  }

  lemma {:induction false} StandingFrom(log: seq<Event>) returns (i: nat)
    requires Standing(log).Some?
    ensures i < |log| && log[i].Refreshed? && Quiet(log, i, |log|)
    ensures Standing(log) == Some(Cache(log[i].token, log[i].expiry, log[i].id))
    decreases |log|
  {
    i := |log| - 1;
    if !log[i].Refreshed? {
      i := StandingFrom(log[..|log| - 1]);
    }
  }

  /** Between two successful refreshes with none between them, the cache was closed, or
      the first one's token was empty or had expired when the second one looked. */
  lemma RefreshOnlyWhenNeeded(hasCleanup: bool, now: int, steps: seq<Step>, r: State, i: nat, j: nat)
    requires Leads(Initial(hasCleanup, now), steps, r)
    requires i < j < |r.log| && r.log[i].Refreshed? && r.log[j].Refreshed?
    requires forall k :: i < k < j ==> !r.log[k].Refreshed?
    ensures (exists k :: i < k < j && r.log[k].Closed?) || r.log[i].token == "" || r.log[i].expiry <= r.log[j].checkedAt
  {
    InitialInv(hasCleanup, now);
    InvAlways(Initial(hasCleanup, now), steps, r);
    if !exists k :: i < k < j && r.log[k].Closed? {
      StandingAfter(r.log[..j], i);
      assert Justified(r.log[..j], r.log[j]);
    }
  }

  /** A token served from the cache is that of the last refresh, not closed since, and was
      unexpired when it was checked. */
  lemma ServedTokenInForce(hasCleanup: bool, now: int, steps: seq<Step>, r: State, j: nat) returns (i: nat)
    requires Leads(Initial(hasCleanup, now), steps, r)
    requires j < |r.log| && r.log[j].Served?
    ensures i < j && r.log[i].Refreshed? && Quiet(r.log, i, j)
    ensures r.log[i].token == r.log[j].token != "" && r.log[j].checkedAt < r.log[i].expiry
  {
    InitialInv(hasCleanup, now);
    InvAlways(Initial(hasCleanup, now), steps, r);
    assert Justified(r.log[..j], r.log[j]);
    i := StandingFrom(r.log[..j]);
  }

  /** Cleanup deletes the id that came with the cached token. */
  lemma DeletesItsOwnToken(hasCleanup: bool, now: int, steps: seq<Step>, r: State, j: nat) returns (i: nat)
    requires Leads(Initial(hasCleanup, now), steps, r)
    requires j < |r.log| && r.log[j].Deleted?
    ensures i < j && r.log[i].Refreshed? && Quiet(r.log, i, j)
    ensures r.log[i].token == r.log[j].token && r.log[i].id == r.log[j].id
  {
    InitialInv(hasCleanup, now);
    InvAlways(Initial(hasCleanup, now), steps, r);
    assert Justified(r.log[..j], r.log[j]);
    i := StandingFrom(r.log[..j]);
  }

  /** Whenever no caller is between the stores of a refresh, a cached token is that of the
      last refresh and tokenID is the id it came with. */
  lemma TokenIdBelongs(hasCleanup: bool, now: int, steps: seq<Step>, r: State) returns (i: nat)
    requires Leads(Initial(hasCleanup, now), steps, r)
    requires forall t: nat :: !PcOf(r, t).GotId? && !PcOf(r, t).StoredToken?
    requires r.cache.token != ""
    ensures i < |r.log| && r.log[i].Refreshed? && Quiet(r.log, i, |r.log|)
    ensures r.cache == Cache(r.log[i].token, r.log[i].expiry, r.log[i].id)
  {
    InitialInv(hasCleanup, now);
    InvAlways(Initial(hasCleanup, now), steps, r);
    i := StandingFrom(r.log);
  }

  // ------------------------------------------------------- what a caller is told

  /** About to give its lock back and return, from Get or from Close. */
  predicate Returning(pc: Pc)
  {
    pc.SharedDone? || pc.LockedDone?
  }

  function Returned(pc: Pc): Option<string>
    requires Returning(pc)
  {
    if pc.SharedDone? then Some(pc.result) else pc.answer
  }

  /** Some event of log hands token out: a refresh brought it or the cache served it. */
  ghost predicate HandsOut(log: seq<Event>, token: string)
  {
    exists j :: 0 <= j < |log| && (log[j].Refreshed? || log[j].Served?) && log[j].token == token
  }

  /** What a caller is about to return is a token the log hands out. */
  ghost predicate ToldFromLog(s: State, t: nat)
  {
    var pc := PcOf(s, t);
    Returning(pc) && Returned(pc).Some? ==> HandsOut(s.log, Returned(pc).value)
  }

  lemma HandsOutAppend(log: seq<Event>, e: Event, token: string)
    requires HandsOut(log, token) || ((e.Refreshed? || e.Served?) && e.token == token)
    ensures HandsOut(log + [e], token)
  {
    var all := log + [e];
    if HandsOut(log, token) {
      var j :| 0 <= j < |log| && (log[j].Refreshed? || log[j].Served?) && log[j].token == token;
      assert all[j] == log[j];
    } else {
      assert all[|log|] == e;
    }
  }

  lemma ToldStep(s: State, step: Step, t: nat)
    requires LocksHeld(s) && CacheStands(s) && Enabled(s, step) && ToldFromLog(s, t)
    ensures ToldFromLog(Apply(s, step), t)
  {
    var r := Apply(s, step);
    var pc := PcOf(r, t);
    if Actor(step) != Some(t) {
      OthersStay(s, step, t);
    }
    if Returning(pc) && Returned(pc).Some? && r.log != s.log {
      var e := r.log[|r.log| - 1];
      assert r.log == s.log + [e];
      assert step.StoreExpiry? ==> HoldsItsLocks(s, step.t);
      HandsOutAppend(s.log, e, Returned(pc).value);
    }
  }

  lemma {:induction false} ToldAlways(s: State, steps: seq<Step>, r: State, t: nat)
    requires Inv(s) && Leads(s, steps, r) && ToldFromLog(s, t)
    ensures ToldFromLog(r, t)
    decreases |steps|
  {
    if steps != [] {
      InvStep(s, steps[0]);
      ToldStep(s, steps[0], t);
      ToldAlways(Apply(s, steps[0]), steps[1..], r, t);
    }
  }

  /** However callers are interleaved, a token returned is one that a refresh brought or the
      cache served. */
  lemma {:induction false} ReturnedFromLog(hasCleanup: bool, now: int, steps: seq<Step>, r: State, t: nat) returns (j: nat)
    requires Leads(Initial(hasCleanup, now), steps, r)
    requires Returning(PcOf(r, t)) && Returned(PcOf(r, t)).Some?
    ensures j < |r.log| && (r.log[j].Refreshed? || r.log[j].Served?)
    ensures r.log[j].token == Returned(PcOf(r, t)).value
  {
    InitialInv(hasCleanup, now);
    ToldAlways(Initial(hasCleanup, now), steps, r, t);
    j :| 0 <= j < |r.log| && (r.log[j].Refreshed? || r.log[j].Served?) && r.log[j].token == Returned(PcOf(r, t)).value;
  }

  // ------------------------------------------------------------ one caller again

  function LeaveStep(s: State, t: nat): Step
  {
    if PcOf(s, t).SharedDone? then RUnlock(t) else Unlock(t)
  }

  predicate AllFree(s: State, t: nat)
  {
    PcOf(s, t).Idle? && s.writer.None? && s.readers == {}
  }

  /** A caller whom nobody disturbs does in the machine what Get does alone: in r it is about
      to return the same answer, with the same cache left, and its last step frees the lock. */
  lemma AloneRefines(s: State, t: nat, answer: Refresh, passed: nat) returns (steps: seq<Step>, r: State)
    requires AllFree(s, t)
    ensures Leads(s, steps, r) && Returning(PcOf(r, t))
    ensures (r.cache, Returned(PcOf(r, t))) == GetAlone(s.cache, s.now, answer, s.now + passed)
    ensures Enabled(r, LeaveStep(r, t)) && AllFree(Apply(r, LeaveStep(r, t)), t)
  {
    hide Leads;
    var c := Goto(Goto(Goto(s, t, WantShared), t, SharedCheck), t, if Usable(s.cache, s.now) then SharedRead(s.now) else SharedMiss)
      .(readers := s.readers + {t});
    if Usable(s.cache, s.now) {
      r := Apply(c, ReadShared(t));
      steps := Last(c, ReadShared(t));
    } else {
      var d := Apply(c, RUnlock(t));
      steps, r := AloneLocked(d, t, answer, passed);
      steps := Cons(c, RUnlock(t), steps, r);
    }
    steps := AloneShared(s, t, c, steps, r);
  }

  /** The way to the check under the read lock. */
  lemma AloneShared(s: State, t: nat, c: State, rest: seq<Step>, r: State) returns (steps: seq<Step>)
    requires AllFree(s, t) && Leads(c, rest, r)
    requires c == Goto(Goto(Goto(s, t, WantShared), t, SharedCheck), t, if Usable(s.cache, s.now) then SharedRead(s.now) else SharedMiss)
                    .(readers := s.readers + {t})
    ensures Leads(s, steps, r)
  {
    hide Leads;
    var a := Apply(s, CallGet(t));
    var b := Apply(a, RLock(t));
    steps := Cons(b, Check(t), rest, r);
    steps := Cons(a, RLock(t), steps, r);
    steps := Cons(s, CallGet(t), steps, r);
  }

  lemma AloneLocked(s: State, t: nat, answer: Refresh, passed: nat) returns (steps: seq<Step>, r: State)
    requires PcOf(s, t).WantLock? && s.writer.None? && s.readers == {} && !Usable(s.cache, s.now)
    ensures Leads(s, steps, r) && PcOf(r, t).LockedDone? && r.readers == {}
    ensures (r.cache, PcOf(r, t).answer) == GetAlone(s.cache, s.now, answer, s.now + passed)
  {
    hide Leads;
    var a := Apply(s, Lock(t));
    var b := Apply(a, Check(t));
    var c := Apply(b, Tick(passed));
    var d := Apply(c, Answer(t, answer));
    if answer.RefreshFailed? {
      r := d;
      steps := Last(c, Answer(t, answer));
    } else {
      steps, r := AloneStores(d, t);
      steps := Cons(c, Answer(t, answer), steps, r);
    }
    steps := Cons(b, Tick(passed), steps, r);
    steps := Cons(a, Check(t), steps, r);
    steps := Cons(s, Lock(t), steps, r);
  }

  lemma AloneStores(s: State, t: nat) returns (steps: seq<Step>, r: State)
    requires PcOf(s, t).GotId?
    ensures Leads(s, steps, r) && PcOf(r, t) == LockedDone(Some(PcOf(s, t).got)) && r.readers == s.readers
    ensures r.cache == Cache(PcOf(s, t).got, s.now + PcOf(s, t).ttl, s.cache.tokenID)
  {
    hide Leads;
    var a := Apply(s, StoreToken(t));
    r := Apply(a, StoreExpiry(t));
    steps := Last(a, StoreExpiry(t));
    steps := Cons(s, StoreToken(t), steps, r);
  }

  lemma Last(s: State, step: Step) returns (steps: seq<Step>)
    requires Enabled(s, step)
    ensures Leads(s, steps, Apply(s, step))
  {
    assert Leads(Apply(s, step), [], Apply(s, step));
    steps := Cons(s, step, [], Apply(s, step));
  }

  lemma Cons(s: State, step: Step, rest: seq<Step>, r: State) returns (steps: seq<Step>)
    requires Enabled(s, step) && Leads(Apply(s, step), rest, r)
    ensures Leads(s, steps, r)
  {
    steps := [step] + rest;
    assert steps[1..] == rest;
  }
}
