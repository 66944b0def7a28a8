/** The part of SQL the segment generators emit: tokens, grammar, meaning.

    AND binds tighter than OR (section 6.34 of ISO/IEC 9075-2:2003), INTERSECT tighter than UNION and EXCEPT, which
    associate to the left (section 7.13). */
module Sql {
  import opened Wrappers

  // ---- tokens ----

  datatype Kind = PageViews | Views | Counts | CustomEvents

  /** A ClickHouse result table, numbered within its segment. */
  datatype Table = Table(kind: Kind, n: nat)

  /** An indivisible condition on a contact, or on a contact and one of its devices. */
  datatype Atom =
    | InAccount
    | IsActive
    | Since(column: string, days: string)
    | Before(column: string, days: string)
    | IsNull(column: string)
    | NotNull(column: string)
    | DeviceType(channel: string)
    | Member(table: Table, positive: bool, byEmail: bool)
    | Flag(name: string)
    | Field(key: string, operator: string, value: string)
    | Custom(text: string)
    | AutomationOn(text: string)
    | AutomationSince(text: string)
    | True

  datatype Token =
    | Insert | Open | Close | Select | Hole | Join | Where | And | Or | Not | A(atom: Atom)
    | SelectTagged(tag: string) | Union | Intersect | Except | Limit(n: nat) | Semicolon | Drop(table: Table)

  // ---- conditions ----

  datatype Factor = Leaf(atom: Atom) | Neg(f: Factor) | Group(cond: Cond)
  datatype Conj = Just(f: Factor) | Both(f: Factor, more: Conj)
  datatype Cond = Only(c: Conj) | Either(c: Conj, more: Cond)

  function RenderFactor(f: Factor): seq<Token> {
    match f
    case Leaf(a) => [A(a)]
    case Neg(g) => [Not] + RenderFactor(g)
    case Group(c) => [Open] + RenderCond(c) + [Close]
  }

  function RenderConj(c: Conj): seq<Token> {
    match c
    case Just(f) => RenderFactor(f)
    case Both(f, more) => RenderFactor(f) + [And] + RenderConj(more)
  }

  function RenderCond(c: Cond): seq<Token> {
    match c
    case Only(j) => RenderConj(j)
    case Either(j, more) => RenderConj(j) + [Or] + RenderCond(more)
  }

  datatype Parsed<T> = Fail | Ok(value: T, rest: seq<Token>)

  predicate Starts(ts: seq<Token>, t: Token) {
    ts != [] && ts[0] == t
  }

  function ParseFactor(ts: seq<Token>): (r: Parsed<Factor>)
    ensures r.Ok? ==> |r.rest| < |ts|
    decreases |ts|, 0
  {
    if ts == [] then Fail
    else match ts[0]
      case A(a) => Ok(Leaf(a), ts[1..])
      case Not =>
        var f := ParseFactor(ts[1..]);
        if f.Ok? then Ok(Neg(f.value), f.rest) else Fail
      case Open =>
        var c := ParseCond(ts[1..]);
        if c.Ok? && Starts(c.rest, Close) then Ok(Group(c.value), c.rest[1..]) else Fail
      case _ => Fail
  }

  function ParseConj(ts: seq<Token>): (r: Parsed<Conj>)
    ensures r.Ok? ==> |r.rest| < |ts|
    decreases |ts|, 1
  {
    var f := ParseFactor(ts);
    if f.Fail? then Fail
    else if !Starts(f.rest, And) then Ok(Just(f.value), f.rest)
    else
      var more := ParseConj(f.rest[1..]);
      if more.Ok? then Ok(Both(f.value, more.value), more.rest) else Fail
  }

  function ParseCond(ts: seq<Token>): (r: Parsed<Cond>)
    ensures r.Ok? ==> |r.rest| < |ts|
    decreases |ts|, 2
  {
    var j := ParseConj(ts);
    if j.Fail? then Fail
    else if !Starts(j.rest, Or) then Ok(Only(j.value), j.rest)
    else
      var more := ParseCond(j.rest[1..]);
      if more.Ok? then Ok(Either(j.value, more.value), more.rest) else Fail
  }

  /** What may follow a complete condition. */
  predicate EndsCond(ts: seq<Token>) {
    ts == [] || (ts[0] != And && ts[0] != Or)
  }

  lemma {:induction false} FactorRoundTrip(f: Factor, rest: seq<Token>)
    ensures ParseFactor(RenderFactor(f) + rest) == Ok(f, rest)
    decreases f
  {
    var ts := RenderFactor(f) + rest;
    match f
    case Leaf(_) =>
    case Neg(g) =>
      assert ts[1..] == RenderFactor(g) + rest;
      FactorRoundTrip(g, rest);
    case Group(c) =>
      assert ts[1..] == RenderCond(c) + ([Close] + rest);
      CondRoundTrip(c, [Close] + rest);
      assert ([Close] + rest)[1..] == rest;
  }

  lemma {:induction false} ConjRoundTrip(c: Conj, rest: seq<Token>)
    requires !Starts(rest, And)
    ensures ParseConj(RenderConj(c) + rest) == Ok(c, rest)
    decreases c
  {
    match c
    case Just(f) => FactorRoundTrip(f, rest);
    case Both(f, more) =>
      assert RenderConj(c) + rest == RenderFactor(f) + ([And] + RenderConj(more) + rest);
      FactorRoundTrip(f, [And] + RenderConj(more) + rest);
      assert ([And] + RenderConj(more) + rest)[1..] == RenderConj(more) + rest;
      ConjRoundTrip(more, rest);
  }

  /** Every condition can be read back: rendering loses no structure. */
  lemma {:induction false} CondRoundTrip(c: Cond, rest: seq<Token>)
    requires EndsCond(rest)
    ensures ParseCond(RenderCond(c) + rest) == Ok(c, rest)
    decreases c
  {
    match c
    case Only(j) => ConjRoundTrip(j, rest);
    case Either(j, more) =>
      assert RenderCond(c) + rest == RenderConj(j) + ([Or] + RenderCond(more) + rest);
      ConjRoundTrip(j, [Or] + RenderCond(more) + rest);
      assert ([Or] + RenderCond(more) + rest)[1..] == RenderCond(more) + rest;
      CondRoundTrip(more, rest);
  }

  // ---- queries ----

  datatype SetOp = Plus | Minus

  datatype Primary = Sub(q: Query) | Contacts(joined: bool, cond: Cond) | Tagged(tag: string)
  datatype Term = Single(p: Primary) | Meet(p: Primary, more: Term)
  datatype Tail = End | More(op: SetOp, t: Term, tail: Tail)
  datatype Query = Query(first: Term, tail: Tail)

  function OpToken(op: SetOp): Token {
    if op.Plus? then Union else Except
  }

  function RenderPrimary(p: Primary): seq<Token> {
    match p
    case Sub(q) => [Open] + RenderQuery(q) + [Close]
    case Contacts(joined, cond) => [Select] + (if joined then [Join] else []) + [Where] + RenderCond(cond)
    case Tagged(tag) => [SelectTagged(tag)]
  }

  function RenderTerm(t: Term): seq<Token> {
    match t
    case Single(p) => RenderPrimary(p)
    case Meet(p, more) => RenderPrimary(p) + [Intersect] + RenderTerm(more)
  }

  function RenderTail(tail: Tail): seq<Token> {
    match tail
    case End => []
    case More(op, t, more) => [OpToken(op)] + RenderTerm(t) + RenderTail(more)
  }

  function RenderQuery(q: Query): seq<Token> {
    RenderTerm(q.first) + RenderTail(q.tail)
  }

  function ParsePrimary(ts: seq<Token>): (r: Parsed<Primary>)
    ensures r.Ok? ==> |r.rest| < |ts|
    decreases |ts|, 0
  {
    if ts == [] then Fail
    else match ts[0]
      case SelectTagged(tag) => Ok(Tagged(tag), ts[1..])
      case Open =>
        var q := ParseQuery(ts[1..]);
        if q.Ok? && Starts(q.rest, Close) then Ok(Sub(q.value), q.rest[1..]) else Fail
      case Select =>
        var joined := Starts(ts[1..], Join);
        var us := if joined then ts[2..] else ts[1..];
        if !Starts(us, Where) then Fail
        else
          var c := ParseCond(us[1..]);
          if c.Ok? then Ok(Contacts(joined, c.value), c.rest) else Fail
      case _ => Fail
  }

  function ParseTerm(ts: seq<Token>): (r: Parsed<Term>)
    ensures r.Ok? ==> |r.rest| < |ts|
    decreases |ts|, 1
  {
    var p := ParsePrimary(ts);
    if p.Fail? then Fail
    else if !Starts(p.rest, Intersect) then Ok(Single(p.value), p.rest)
    else
      var more := ParseTerm(p.rest[1..]);
      if more.Ok? then Ok(Meet(p.value, more.value), more.rest) else Fail
  }

  function ParseTail(ts: seq<Token>): (r: Parsed<Tail>)
    ensures r.Ok? ==> |r.rest| <= |ts|
    decreases |ts|, 2
  {
    if !Starts(ts, Union) && !Starts(ts, Except) then Ok(End, ts)
    else
      var t := ParseTerm(ts[1..]);
      if t.Fail? then Fail
      else
        var tail := ParseTail(t.rest);
        if tail.Ok? then Ok(More(if ts[0].Union? then Plus else Minus, t.value, tail.value), tail.rest) else Fail
  }

  function ParseQuery(ts: seq<Token>): (r: Parsed<Query>)
    ensures r.Ok? ==> |r.rest| < |ts|
    decreases |ts|, 3
  {
    var t := ParseTerm(ts);
    if t.Fail? then Fail
    else
      var tail := ParseTail(t.rest);
      if tail.Ok? then Ok(Query(t.value, tail.value), tail.rest) else Fail
  }

  predicate EndsTerm(ts: seq<Token>) {
    EndsCond(ts) && !Starts(ts, Intersect)
  }

  predicate EndsQuery(ts: seq<Token>) {
    EndsTerm(ts) && !Starts(ts, Union) && !Starts(ts, Except)
  }

  lemma {:induction false} SelectRoundTrip(joined: bool, cond: Cond, rest: seq<Token>)
    requires EndsCond(rest)
    ensures ParsePrimary(RenderPrimary(Contacts(joined, cond)) + rest) == Ok(Contacts(joined, cond), rest)
  {
    var us := [Where] + (RenderCond(cond) + rest);
    var ts := RenderPrimary(Contacts(joined, cond)) + rest;
    if joined {
      assert ts == [Select, Join] + us;
    } else {
      assert ts == [Select] + us;
    }
    assert us[1..] == RenderCond(cond) + rest;
    CondRoundTrip(cond, rest);
  }

  lemma {:induction false} PrimaryRoundTrip(p: Primary, rest: seq<Token>)
    requires EndsCond(rest)
    ensures ParsePrimary(RenderPrimary(p) + rest) == Ok(p, rest)
    decreases p
  {
    match p
    case Tagged(_) =>
    case Sub(q) =>
      assert (RenderPrimary(p) + rest)[1..] == RenderQuery(q) + ([Close] + rest);
      QueryRoundTrip(q, [Close] + rest);
      assert ([Close] + rest)[1..] == rest;
    case Contacts(joined, cond) => SelectRoundTrip(joined, cond, rest);
  }

  lemma {:induction false} TermRoundTrip(t: Term, rest: seq<Token>)
    requires EndsTerm(rest)
    ensures ParseTerm(RenderTerm(t) + rest) == Ok(t, rest)
    decreases t
  {
    match t
    case Single(p) => PrimaryRoundTrip(p, rest);
    case Meet(p, more) =>
      var us := [Intersect] + (RenderTerm(more) + rest);
      TermBehindPrimary(RenderPrimary(p), Intersect, RenderTerm(more), rest);
      PrimaryRoundTrip(p, us);
      assert us[1..] == RenderTerm(more) + rest;
      TermRoundTrip(more, rest);
  }

  lemma {:induction false} TermBehindPrimary(a: seq<Token>, t: Token, b: seq<Token>, rest: seq<Token>)
    ensures a + [t] + b + rest == a + ([t] + (b + rest))
  {
  }

  lemma {:induction false} TailRoundTrip(tail: Tail, rest: seq<Token>)
    requires EndsQuery(rest)
    ensures ParseTail(RenderTail(tail) + rest) == Ok(tail, rest)
    decreases tail
  {
    match tail
    case End => assert RenderTail(tail) + rest == rest;
    case More(op, t, more) =>
      var us := RenderTail(more) + rest;
      assert (RenderTail(tail) + rest)[1..] == RenderTerm(t) + us;
      TailStarts(more, rest);
      TermRoundTrip(t, us);
      TailRoundTrip(more, rest);
  }

  lemma {:induction false} TailStarts(tail: Tail, rest: seq<Token>)
    requires EndsQuery(rest)
    ensures EndsTerm(RenderTail(tail) + rest)
  {
    if tail.End? {
      assert RenderTail(tail) + rest == rest;
    }
  }

  /** Every query can be read back. */
  lemma {:induction false} QueryRoundTrip(q: Query, rest: seq<Token>)
    requires EndsQuery(rest)
    ensures ParseQuery(RenderQuery(q) + rest) == Ok(q, rest)
    decreases q
  {
    var us := RenderTail(q.tail) + rest;
    assert RenderQuery(q) + rest == RenderTerm(q.first) + us;
    TailStarts(q.tail, rest);
    TermRoundTrip(q.first, us);
    TailRoundTrip(q.tail, rest);
  }

  // ---- statements ----

  /** An insert of a query's result, perhaps limited, and the tables dropped afterwards. */
  datatype Statement = Statement(query: Query, limit: Option<nat>, drops: seq<Table>)

  function RenderDrops(ts: seq<Table>): seq<Token> {
    if ts == [] then [] else RenderDrops(ts[..|ts| - 1]) + [Drop(ts[|ts| - 1])]
  }

  function ParseDrops(ts: seq<Token>): Option<seq<Table>> {
    if ts == [] then Some([])
    else if !ts[|ts| - 1].Drop? then None
    else
      var before := ParseDrops(ts[..|ts| - 1]);
      if before.Some? then Some(before.value + [ts[|ts| - 1].table]) else None
  }

  function ParseStatement(ts: seq<Token>): Option<Statement> {
    if |ts| < 2 || ts[0] != Insert || ts[1] != Open then None
    else
      var q := ParseQuery(ts[2..]);
      if q.Fail? then None else ParseEnd(q.value, q.rest)
  }

  function RenderStatement(s: Statement): seq<Token> {
    [Insert, Open] + RenderQuery(s.query) + RenderEnd(s)
  }

  lemma {:induction false} DropsRoundTrip(ts: seq<Table>)
    ensures ParseDrops(RenderDrops(ts)) == Some(ts)
  {
    if ts != [] {
      var before := ts[..|ts| - 1];
      DropsRoundTrip(before);
      var r := RenderDrops(ts);
      assert r[..|r| - 1] == RenderDrops(before) && r[|r| - 1] == Drop(ts[|ts| - 1]);
      assert before + [ts[|ts| - 1]] == ts;
    }
  }

  function ParseEnd(q: Query, rest: seq<Token>): Option<Statement> {
    if rest == [] then None
    else
      var limit := if rest[0].Limit? then Some(rest[0].n) else None;
      var end := if rest[0].Limit? then rest[1..] else rest;
      if |end| < 2 || end[0] != Close || end[1] != Semicolon then None
      else
        var drops := ParseDrops(end[2..]);
        if drops.Some? then Some(Statement(q, limit, drops.value)) else None
  }

  function RenderEnd(s: Statement): seq<Token> {
    (if s.limit.Some? then [Limit(s.limit.value)] else []) + [Close, Semicolon] + RenderDrops(s.drops)
  }

  lemma {:induction false} EndRoundTrip(s: Statement)
    ensures ParseEnd(s.query, RenderEnd(s)) == Some(s)
    ensures EndsQuery(RenderEnd(s))
  {
    var end, rest := [Close, Semicolon] + RenderDrops(s.drops), RenderEnd(s);
    SemicolonThenDrops(s.drops);
    if s.limit.Some? {
      assert rest == [Limit(s.limit.value)] + end;
      assert rest[1..] == end;
    } else {
      assert rest == end;
    }
  }

  lemma {:induction false} SemicolonThenDrops(drops: seq<Table>)
    ensures var end := [Close, Semicolon] + RenderDrops(drops);
            |end| >= 2 && end[0] == Close && end[1] == Semicolon && ParseDrops(end[2..]) == Some(drops)
  {
    var end := [Close, Semicolon] + RenderDrops(drops);
    assert end[2..] == RenderDrops(drops);
    DropsRoundTrip(drops);
  }

  /** Every statement can be read back. */
  lemma {:induction false} StatementRoundTrip(s: Statement)
    ensures ParseStatement(RenderStatement(s)) == Some(s)
  {
    var ts, us := RenderStatement(s), RenderQuery(s.query) + RenderEnd(s);
    assert ts == [Insert, Open] + us;
    assert ts[2..] == us;
    EndRoundTrip(s);
    QueryRoundTrip(s.query, RenderEnd(s));
  }

  // ---- meaning ----

  /** The data a query is asked about. */
  datatype World = World(holds: (Atom, nat, Option<nat>) -> bool, devices: nat -> set<nat>,
                         tagged: (string, nat) -> bool)

  predicate FactorHolds(f: Factor, w: World, c: nat, d: Option<nat>) {
    match f
    case Leaf(a) => a == True || w.holds(a, c, d)
    case Neg(g) => !FactorHolds(g, w, c, d)
    case Group(cond) => CondHolds(cond, w, c, d)
  }

  predicate ConjHolds(j: Conj, w: World, c: nat, d: Option<nat>) {
    match j
    case Just(f) => FactorHolds(f, w, c, d)
    case Both(f, more) => FactorHolds(f, w, c, d) && ConjHolds(more, w, c, d)
  }

  predicate CondHolds(cond: Cond, w: World, c: nat, d: Option<nat>) {
    match cond
    case Only(j) => ConjHolds(j, w, c, d)
    case Either(j, more) => ConjHolds(j, w, c, d) || CondHolds(more, w, c, d)
  }

  /** Contact `c` is in the result. A join pairs a contact with each of its devices. */
  predicate InPrimary(p: Primary, w: World, c: nat)
    decreases p
  {
    match p
    case Sub(q) => InQuery(q, w, c)
    case Contacts(joined, cond) =>
      if joined then exists d :: d in w.devices(c) && CondHolds(cond, w, c, Some(d)) else CondHolds(cond, w, c, None)
    case Tagged(tag) => w.tagged(tag, c)
  }

  predicate InTerm(t: Term, w: World, c: nat)
    decreases t
  {
    match t
    case Single(p) => InPrimary(p, w, c)
    case Meet(p, more) => InPrimary(p, w, c) && InTerm(more, w, c)
  }

  predicate InTail(so: bool, tail: Tail, w: World, c: nat)
    decreases tail
  {
    match tail
    case End => so
    case More(op, t, more) =>
      InTail(if op.Plus? then so || InTerm(t, w, c) else so && !InTerm(t, w, c), more, w, c)
  }

  predicate InQuery(q: Query, w: World, c: nat)
    decreases q
  {
    InTail(InTerm(q.first, w, c), q.tail, w, c)
  }
}
