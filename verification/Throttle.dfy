/** The throttle deadline (tools/throttle.cpp): until when REST requests are suspended after
    a 403 or a 429. */
module Throttle {

  const SECOND := 1_000_000_000
  const DEFAULT_BACKOFF := 5 * SECOND
  const BLOCKED_BACKOFF := 600 * SECOND

  datatype Header = UNKNOWN | REMAINING | LIMIT | RESET

  function Lower(c: char): char {
    if 'A' <= c <= 'Z' then (c as nat - 'A' as nat + 'a' as nat) as char else c
  }

  function LowerAll(s: string): (r: string)
    ensures |r| == |s|
  {
    if s == [] then [] else [Lower(s[0])] + LowerAll(s[1..])
  }

  function ParseHeader(name: string): Header {
    var value := LowerAll(name);
    if value == "gw-ratelimit-remaining" then REMAINING
    else if value == "gw-ratelimit-limit" then LIMIT
    else if value == "gw-ratelimit-reset" then RESET
    else UNKNOWN
  }

  lemma {:induction false} LowerTwice(s: string)
    ensures LowerAll(LowerAll(s)) == LowerAll(s)
  {
    if s != [] {
      LowerTwice(s[1..]);
      assert LowerAll(s)[1..] == LowerAll(s[1..]);
    }
  }

  /** Header names are told apart without regard to case. */
  lemma HeaderCase(x: string, y: string)
    requires LowerAll(x) == LowerAll(y)
    ensures ParseHeader(x) == ParseHeader(y) == ParseHeader(LowerAll(x))
  {
    LowerTwice(x);
  }

  /** The same text but for upper-case letters where `lower` has the lower-case one. */
  predicate SameButCase(x: string, lower: string) {
    && |x| == |lower|
    && forall i | 0 <= i < |x| :: x[i] == lower[i] || ('A' <= x[i] <= 'Z' && lower[i] as nat == x[i] as nat + 32)
  }

  /** No upper-case letter. */
  predicate IsLower(s: string) { forall i | 0 <= i < |s| :: !('A' <= s[i] <= 'Z') }

  lemma {:induction false} LowerExact(x: string, lower: string)
    requires IsLower(lower)
    ensures LowerAll(x) == lower <==> SameButCase(x, lower)
  {
    if x != [] && lower != [] {
      LowerExact(x[1..], lower[1..]);
      assert lower == [lower[0]] + lower[1..];
      assert SameButCase(x, lower) <==>
        SameButCase(x[1..], lower[1..]) && (x[0] == lower[0] || ('A' <= x[0] <= 'Z' && lower[0] as nat == x[0] as nat + 32));
    }
  }

  /** The three headers are known by these names, in any case, and no other is. */
  lemma HeaderExact(name: string)
    ensures ParseHeader(name) == REMAINING <==> SameButCase(name, "gw-ratelimit-remaining")
    ensures ParseHeader(name) == LIMIT <==> SameButCase(name, "gw-ratelimit-limit")
    ensures ParseHeader(name) == RESET <==> SameButCase(name, "gw-ratelimit-reset")
  {
    LowerExact(name, "gw-ratelimit-remaining");
    LowerExact(name, "gw-ratelimit-limit");
    LowerExact(name, "gw-ratelimit-reset");
  }

  /** The end of an answer: its HTTP status and the time. */
  datatype Answer = Answer(status: nat, now: nat)

  const FORBIDDEN := 403
  const TOO_MANY_REQUESTS := 429

  function Max(x: int, y: int): int { if x < y then y else x }

  /** Zero is not suspended. */
  function OnEnd(suspendUntil: nat, a: Answer): nat {
    if a.status == FORBIDDEN then Max(suspendUntil, a.now + BLOCKED_BACKOFF)
    else if a.status == TOO_MANY_REQUESTS && suspendUntil == 0 then a.now + DEFAULT_BACKOFF
    else suspendUntil
  }

  class Throttle {
    const enabled: bool
    var remaining: int
    var limit: int
    var reset: int
    var suspendUntil: nat

    constructor (enabled: bool)
      ensures this.enabled == enabled && suspendUntil == 0 && remaining == limit == reset == 0
    {
      this.enabled := enabled;
      remaining, limit, reset, suspendUntil := 0, 0, 0, 0;
    }

    /** Headers are recorded and never move the deadline. */
    method MessageHeader(name: string, value: int)
      modifies `remaining, `limit, `reset
      ensures remaining == (if ParseHeader(name) == REMAINING then value else old(remaining))
      ensures limit == (if ParseHeader(name) == LIMIT then value else old(limit))
      ensures reset == (if ParseHeader(name) == RESET then value else old(reset))
    {
      match ParseHeader(name) {
        case UNKNOWN =>
        case REMAINING => remaining := value;
        case LIMIT => limit := value;
        case RESET => reset := value;
      }
    }

    method MessageEnd(a: Answer)
      modifies `suspendUntil
      ensures suspendUntil == if enabled then OnEnd(old(suspendUntil), a) else old(suspendUntil)
    {
      if !enabled {
        return;
      }
      if a.status == FORBIDDEN {
        suspendUntil := Max(suspendUntil, a.now + BLOCKED_BACKOFF);
      } else if a.status == TOO_MANY_REQUESTS {
        if suspendUntil == 0 {
          suspendUntil := a.now + DEFAULT_BACKOFF;
        }
      }
    }
  }

  // ---- runs of answers

  function Run(suspendUntil: nat, answers: seq<Answer>): nat
    decreases |answers|
  {
    if answers == [] then suspendUntil else OnEnd(Run(suspendUntil, answers[..|answers| - 1]), answers[|answers| - 1])
  }

  /** The deadline never moves back. */
  lemma {:induction false} Monotone(suspendUntil: nat, answers: seq<Answer>)
    ensures Run(suspendUntil, answers) >= suspendUntil
    decreases |answers|
  {
    if answers != [] {
      Monotone(suspendUntil, answers[..|answers| - 1]);
    }
  }

  predicate Relevant(a: Answer) { a.status == FORBIDDEN || a.status == TOO_MANY_REQUESTS }

  /** What an answer asks for, if it is heard. */
  function Deadline(a: Answer): nat { a.now + if a.status == FORBIDDEN then BLOCKED_BACKOFF else DEFAULT_BACKOFF }

  /** Heard are every 403, and a 429 that no 403 or 429 came before. */
  predicate Heard(answers: seq<Answer>, i: nat)
    requires i < |answers|
  {
    answers[i].status == FORBIDDEN
    || (answers[i].status == TOO_MANY_REQUESTS && forall j | 0 <= j < i :: !Relevant(answers[j]))
  }

  /** The largest deadline among the heard answers, zero without any. */
  ghost predicate IsLatest(answers: seq<Answer>, deadline: nat) {
    && (forall i: nat | i < |answers| && Heard(answers, i) :: Deadline(answers[i]) <= deadline)
    && (deadline == 0 || exists i: nat | i < |answers| :: Heard(answers, i) && Deadline(answers[i]) == deadline)
  }

  lemma {:induction false} ZeroExact(answers: seq<Answer>)
    ensures Run(0, answers) == 0 <==> forall i | 0 <= i < |answers| :: !Relevant(answers[i])
    decreases |answers|
  {
    if answers != [] {
      var n := |answers| - 1;
      ZeroExact(answers[..n]);
      assert forall i | 0 <= i < n :: answers[..n][i] == answers[i];
    }
  }

  /** From the start the deadline is the latest that a heard answer asked for: every 403
      counts, of all the 429s only one that is the first of both kinds. */
  lemma {:induction false} DeadlineExact(answers: seq<Answer>)
    ensures IsLatest(answers, Run(0, answers))
    decreases |answers|
  {
    if answers != [] {
      var n := |answers| - 1;
      DeadlineExact(answers[..n]);
      ZeroExact(answers[..n]);
      Extend(answers);
    }
  }

  lemma Extend(answers: seq<Answer>)
    requires answers != []
    requires IsLatest(answers[..|answers| - 1], Run(0, answers[..|answers| - 1]))
    requires Run(0, answers[..|answers| - 1]) == 0 <==> forall i | 0 <= i < |answers| - 1 :: !Relevant(answers[i])
    ensures IsLatest(answers, Run(0, answers))
  {
    var n := |answers| - 1;
    var before := Run(0, answers[..n]);
    if Heard(answers, n) {
      ExtendHeard(answers, before);
    } else {
      ExtendUnheard(answers, before);
    }
  }

  lemma ExtendHeard(answers: seq<Answer>, before: nat)
    requires answers != [] && IsLatest(answers[..|answers| - 1], before) && Heard(answers, |answers| - 1)
    ensures IsLatest(answers, Max(before, Deadline(answers[|answers| - 1])))
  {
  }

  lemma ExtendUnheard(answers: seq<Answer>, before: nat)
    requires answers != [] && IsLatest(answers[..|answers| - 1], before) && !Heard(answers, |answers| - 1)
    ensures IsLatest(answers, before)
  {
  }

  /** A 429 leaves requests suspended beyond its own time if and only if nothing was ever
      suspended before or the suspension still lasts: the deadline is not cleared when it
      has passed, so later 429s are not honoured. */
  lemma TooManyRequestsExact(answers: seq<Answer>, now: nat)
    ensures Run(0, answers + [Answer(TOO_MANY_REQUESTS, now)]) > now <==>
      (forall i | 0 <= i < |answers| :: !Relevant(answers[i])) || Run(0, answers) > now
  {
  }

  /** After a first 429, and without any 403, no later 429 moves the deadline. */
  lemma {:induction false} OnlyFirstCounts(first: nat, answers: seq<Answer>)
    requires forall i | 0 <= i < |answers| :: answers[i].status != FORBIDDEN
    ensures Run(OnEnd(0, Answer(TOO_MANY_REQUESTS, first)), answers) == first + DEFAULT_BACKOFF
    decreases |answers|
  {
    if answers != [] {
      OnlyFirstCounts(first, answers[..|answers| - 1]);
    }
  }

  /** In nanoseconds: from the start a 403 suspends for ten minutes, a 429 for five seconds,
      and no other status suspends. */
  lemma FirstAnswerExact(status: nat, now: nat)
    ensures Run(0, [Answer(status, now)]) ==
      if status == 403 then now + 600_000_000_000 else if status == 429 then now + 5_000_000_000 else 0
  {
    assert [Answer(status, now)][..0] == [];
    assert Run(0, [Answer(status, now)]) == OnEnd(Run(0, []), Answer(status, now));
  }
}
