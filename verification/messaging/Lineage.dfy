/** Messages and what retrying writes into their headers. */
module Lineage {
  import opened Wrappers
  import opened Backoff

  /** The `x-bms-*` headers. */
  datatype Headers = Headers(attempt: Option<int>, firstError: Option<string>, lastError: Option<string>,
                             parseError: Option<string>)

  /** One copy of a message. `origin`, `errors` and `delays` record how it came here: the headers it was published
      with, the errors of its handlings so far and how long it waited after each. */
  datatype Message = Message(id: nat, parses: bool, headers: Headers, origin: Headers, errors: seq<string>,
                             delays: seq<int>)

  datatype Config = Config(maxRetries: int, baseMs: int, maxMs: int)

  /** A header that is missing or below one counts as the first attempt. */
  function ParseAttempt(h: Headers): (n: int)
    ensures n >= 1
  {
    if h.attempt.Some? && h.attempt.value >= 1 then h.attempt.value else 1
  }

  function Or(a: Option<string>, b: string): string {
    if a.Some? then a.value else b
  }

  function Failed(m: Message, attempt: int, error: string): Message {
    m.(headers := m.headers.(attempt := Some(attempt), firstError := Some(Or(m.headers.firstError, error)),
                             lastError := Some(error)),
       errors := m.errors + [error])
  }

  function RetryDelay(cfg: Config, m: Message): int {
    ComputeBackoffMs(ParseAttempt(m.headers) + 1, cfg.baseMs, cfg.maxMs)
  }

  /** The copy that is published again. */
  function Retried(cfg: Config, m: Message, error: string): Message {
    Failed(m, ParseAttempt(m.headers) + 1, error).(delays := m.delays + [RetryDelay(cfg, m)])
  }

  /** The copy that is dead-lettered. */
  function Exhausted(m: Message, error: string): Message {
    Failed(m, ParseAttempt(m.headers), error)
  }

  function Unparsable(m: Message, error: string): Message {
    m.(headers := m.headers.(parseError := Some(error)))
  }

  predicate Gives(cfg: Config, m: Message) {
    ParseAttempt(m.headers) >= cfg.maxRetries
  }

  // ---- what the headers of a copy tell ----

  /** The delay before handling number `i + 2`. */
  function DelayAt(cfg: Config, m: Message, i: nat): int {
    ComputeBackoffMs(ParseAttempt(m.origin) + i + 1, cfg.baseMs, cfg.maxMs)
  }

  ghost predicate Tagged(m: Message) {
    if m.errors == [] then m.headers == m.origin
    else
      && m.headers.firstError == Some(Or(m.origin.firstError, m.errors[0]))
      && m.headers.lastError == Some(m.errors[|m.errors| - 1])
  }

  ghost predicate Waited(cfg: Config, m: Message) {
    forall i | 0 <= i < |m.delays| :: m.delays[i] == DelayAt(cfg, m, i)
  }

  /** A copy in circulation: its handlings so far all failed, were counted one by one, left the first error in its
      place and were each followed by the delay due; another handling is allowed. */
  ghost predicate Circulating(cfg: Config, m: Message) {
    && Tagged(m) && Waited(cfg, m) && |m.delays| == |m.errors|
    && ParseAttempt(m.headers) == ParseAttempt(m.origin) + |m.errors|
    && |m.errors| < Handlings(cfg, m)
    && (m.errors != [] ==> m.parses)
  }

  /** A dead letter: it never parsed and was never handled, or it was handled exactly as often as allowed. */
  ghost predicate DeadLetter(cfg: Config, m: Message) {
    if m.errors == [] then
      && !m.parses && m.delays == [] && m.headers.parseError.Some?
      && m.headers == m.origin.(parseError := m.headers.parseError)
    else
      && m.parses && Tagged(m) && Waited(cfg, m) && |m.delays| == |m.errors| - 1
      && ParseAttempt(m.headers) == ParseAttempt(m.origin) + |m.errors| - 1
      && |m.errors| == Handlings(cfg, m)
  }

  /** How often a message may be handled: at least once, and until its attempt number reaches `maxRetries`. */
  function Handlings(cfg: Config, m: Message): int {
    var left := cfg.maxRetries - ParseAttempt(m.origin) + 1;
    if left < 1 then 1 else left
  }

  lemma {:induction false} RetriedCirculates(cfg: Config, m: Message, error: string)
    requires Circulating(cfg, m) && m.parses && !Gives(cfg, m)
    ensures Circulating(cfg, Retried(cfg, m, error))
  {
    var r := Retried(cfg, m, error);
    forall i | 0 <= i < |r.delays| ensures r.delays[i] == DelayAt(cfg, r, i) {
      assert i < |m.delays| ==> m.delays[i] == DelayAt(cfg, m, i);
    }
  }

  lemma {:induction false} ExhaustedIsDead(cfg: Config, m: Message, error: string)
    requires Circulating(cfg, m) && m.parses && Gives(cfg, m)
    ensures DeadLetter(cfg, Exhausted(m, error))
  {
    var r := Exhausted(m, error);
    forall i | 0 <= i < |r.delays| ensures r.delays[i] == DelayAt(cfg, r, i) {
      assert m.delays[i] == DelayAt(cfg, m, i);
    }
  }

  /** Along a lineage the delays never shrink. */
  lemma {:induction false} DelaysRise(cfg: Config, m: Message, i: nat, j: nat)
    requires Waited(cfg, m) && i <= j < |m.delays| && (cfg.maxMs >= 0 ==> Finite(cfg.maxMs))
    ensures m.delays[i] <= m.delays[j]
    ensures cfg.baseMs > 0 || cfg.maxMs >= 0 ==> m.delays[j] <= cfg.maxMs
  {
    BackoffMonotone(ParseAttempt(m.origin) + i + 1, ParseAttempt(m.origin) + j + 1, cfg.baseMs, cfg.maxMs);
    BackoffCapped(ParseAttempt(m.origin) + j + 1, cfg.baseMs, cfg.maxMs);
  }
}
