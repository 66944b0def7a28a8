/** The lock around the processing of one segment: a key with a token and a time to live. */
module SegmentLock {
  import opened Wrappers

  /** Seconds. */
  const TTL: nat := 1900

  datatype Key = Key(token: nat, expires: nat)

  datatype Event = Acquire(token: nat) | Release(token: nat) | Die(token: nat) | Tick(seconds: nat)

  /** `running` are the workers between acquire and release, with the time they started; `used` are the tokens drawn. */
  datatype State = State(now: nat, key: Option<Key>, running: map<nat, nat>, used: set<nat>)

  function Init(): State {
    State(0, None, map[], {})
  }

  /** Tokens are random UUIDs: nobody draws one twice. */
  predicate Enabled(s: State, e: Event) {
    match e
    case Acquire(token) => token !in s.used
    case Release(token) => token in s.running
    case Die(token) => token in s.running
    case Tick(_) => true
  }

  function Expire(key: Option<Key>, now: nat): Option<Key> {
    if key.Some? && key.value.expires <= now then None else key
  }

  /** SET NX EX: only an absent key can be set. */
  function SetNx(key: Option<Key>, token: nat, now: nat): Option<Key> {
    if key.None? then Some(Key(token, now + TTL)) else key
  }

  /** Compare and delete, in one script. */
  function DelIfMine(key: Option<Key>, token: nat): Option<Key> {
    if key.Some? && key.value.token == token then None else key
  }

  function Next(s: State, e: Event): State
    requires Enabled(s, e)
  {
    match e
    case Acquire(token) =>
      s.(key := SetNx(s.key, token, s.now), used := s.used + {token},
         running := if s.key.None? then s.running[token := s.now] else s.running)
    case Release(token) => s.(key := DelIfMine(s.key, token), running := s.running - {token})
    case Die(token) => s.(running := s.running - {token})
    case Tick(seconds) => s.(now := s.now + seconds, key := Expire(s.key, s.now + seconds))
  }

  ghost predicate Legal(s: State, es: seq<Event>)
    decreases es
  {
    es == [] || (Enabled(s, es[0]) && Legal(Next(s, es[0]), es[1..]))
  }

  ghost function Run(s: State, es: seq<Event>): State
    requires Legal(s, es)
    decreases es
  {
    if es == [] then s else Run(Next(s, es[0]), es[1..])
  }

  /** A worker whose time is not up holds the key. */
  ghost predicate Holds(s: State, token: nat)
    requires token in s.running
  {
    s.now < s.running[token] + TTL ==> s.key == Some(Key(token, s.running[token] + TTL))
  }

  ghost predicate Invariant(s: State) {
    && s.running.Keys <= s.used
    && (forall token <- s.running :: Holds(s, token))
    && (s.key.Some? ==> s.key.value.token in s.used && s.now < s.key.value.expires <= s.now + TTL)
  }

  lemma {:induction false} StepKeepsInvariant(s: State, e: Event)
    requires Invariant(s) && Enabled(s, e)
    ensures Invariant(Next(s, e))
  {
    var s' := Next(s, e);
    forall token <- s'.running ensures Holds(s', token) {
      if token in s.running {
        assert Holds(s, token);
      }
    }
  }

  lemma {:induction false} RunKeepsInvariant(s: State, es: seq<Event>)
    requires Invariant(s) && Legal(s, es)
    ensures Invariant(Run(s, es))
    decreases es
  {
    if es != [] {
      StepKeepsInvariant(s, es[0]);
      RunKeepsInvariant(Next(s, es[0]), es[1..]);
    }
  }

  /** Mutual exclusion: in every interleaving of workers, crashes and time, two workers are between acquire and release
      at once only if one of them has outlasted its time to live. */
  lemma {:induction false} OneWorkerWithinTtl(es: seq<Event>, a: nat, b: nat)
    requires Legal(Init(), es)
    requires var s := Run(Init(), es); a in s.running && b in s.running && a != b
    ensures var s := Run(Init(), es); s.running[a] + TTL <= s.now || s.running[b] + TTL <= s.now
  {
    RunKeepsInvariant(Init(), es);
    var s := Run(Init(), es);
    assert Holds(s, a) && Holds(s, b);
  }

  /** A release never deletes a key that holds another worker's token, even one acquired after its own expired. */
  lemma {:induction false} ReleaseSparesOthers(es: seq<Event>, token: nat)
    requires Legal(Init(), es) && token in Run(Init(), es).running
    ensures var s := Run(Init(), es);
            var s' := Next(s, Release(token));
            && (s.key.Some? && s.key.value.token != token ==> s'.key == s.key)
            && forall other | other in s.running && other != token && s.now < s.running[other] + TTL ::
                 s'.key == Some(Key(other, s.running[other] + TTL))
  {
    RunKeepsInvariant(Init(), es);
    var s := Run(Init(), es);
    forall other | other in s.running && other != token && s.now < s.running[other] + TTL
      ensures Next(s, Release(token)).key == Some(Key(other, s.running[other] + TTL))
    {
      assert Holds(s, other);
    }
  }

  /** Nobody is shut out for longer than the time to live: whatever happened before, a key left behind expires. */
  lemma {:induction false} KeyExpires(es: seq<Event>, seconds: nat)
    requires Legal(Init(), es) && seconds >= TTL
    ensures Next(Run(Init(), es), Tick(seconds)).key.None?
  {
    RunKeepsInvariant(Init(), es);
  }

  // ---- the worker ----

  class Redis {
    var now: nat
    var key: Option<Key>
    var running: map<nat, nat>
    var used: set<nat>

    function Now(): State
      reads this
    {
      State(now, key, running, used)
    }

    constructor ()
      ensures Now() == Init()
    {
      now, key, running, used := 0, None, map[], {};
    }

    method SetNxEx(token: nat) returns (acquired: bool)
      modifies this`key
      ensures key == SetNx(old(key), token, now) && acquired == old(key).None?
    {
      acquired := key.None?;
      if acquired {
        key := Some(Key(token, now + TTL));
      }
    }

    method CompareAndDelete(token: nat) returns (released: bool)
      modifies this`key
      ensures key == DelIfMine(old(key), token) && released == (old(key) != key)
    {
      released := key.Some? && key.value.token == token;
      if released {
        key := None;
      }
    }

    /** Enter `processSegment`; on contention the job is retried later with another token. */
    method Enter(token: nat) returns (acquired: bool)
      requires Invariant(Now()) && Enabled(Now(), Acquire(token))
      modifies this
      ensures Now() == Next(old(Now()), Acquire(token)) && Invariant(Now())
      ensures acquired <==> token in running
    {
      StepKeepsInvariant(Now(), Acquire(token));
      acquired := SetNxEx(token);
      used := used + {token};
      if acquired {
        running := running[token := now];
      }
    }

    /** Leave it. A release that finds another token, or none, means the run outlasted its time. */
    method Leave(token: nat) returns (released: bool)
      requires Invariant(Now()) && Enabled(Now(), Release(token))
      modifies this
      ensures Now() == Next(old(Now()), Release(token)) && Invariant(Now())
      ensures !released ==> old(running)[token] + TTL <= now
    {
      StepKeepsInvariant(Now(), Release(token));
      assert Holds(Now(), token);
      released := CompareAndDelete(token);
      running := running - {token};
    }
  }
}
