/** Exponential backoff: when another attempt is allowed, and after how long. Arithmetic is over reals. */
module Retry {
  import opened Jobs
  import QueueSpec
  import QueueInvariant
  import QueueRuns
  import QueueHistory
  import QueueTheorems

  type Event = QueueRuns.Event

  datatype Options = Options(
    maxAttempts: real,
    baseMs: Option<real>,
    factor: Option<real>,
    maxMs: Option<real>,
    jitter: Option<real>)

  datatype Policy = Policy(maxAttempts: nat, baseMs: real, factor: real, maxMs: real, jitter: real)

  datatype Made = Made(policy: Policy) | BadAttempts | BadJitter

  function Or(x: Option<real>, default: real): real {
    if x.Some? then x.value else default
  }

  function ExponentialBackoff(o: Options): (r: Made)
    ensures r.Made? <==> o.maxAttempts.Floor as real == o.maxAttempts && o.maxAttempts >= 1.0 && 0.0 <= Or(o.jitter, 0.2) <= 1.0
    ensures r.BadJitter? ==> o.jitter.Some? && !(0.0 <= o.jitter.value <= 1.0)
    ensures r.Made? ==> r.policy.maxAttempts as real == o.maxAttempts && 0.0 <= r.policy.jitter <= 1.0
    ensures r.Made? ==> (o.jitter.Some? ==> r.policy.jitter == o.jitter.value) && (o.jitter == None ==> r.policy.jitter == 0.2)
    ensures r.Made? ==> (o.baseMs.Some? ==> r.policy.baseMs == o.baseMs.value) && (o.baseMs == None ==> r.policy.baseMs == 1000.0)
    ensures r.Made? ==> (o.factor.Some? ==> r.policy.factor == o.factor.value) && (o.factor == None ==> r.policy.factor == 2.0)
    ensures r.Made? ==> (o.maxMs.Some? ==> r.policy.maxMs == o.maxMs.value) && (o.maxMs == None ==> r.policy.maxMs == 60000.0)
  {
    if o.maxAttempts.Floor as real != o.maxAttempts || o.maxAttempts < 1.0 then BadAttempts
    else
      var jitter := Or(o.jitter, 0.2);
      if jitter < 0.0 || jitter > 1.0 then BadJitter
      else Made(Policy(o.maxAttempts.Floor, Or(o.baseMs, 1000.0), Or(o.factor, 2.0), Or(o.maxMs, 60000.0), jitter))
  }

  function Power(x: real, n: nat): real {
    if n == 0 then 1.0 else x * Power(x, n - 1)
  }

  function Least(a: real, b: real): real {
    if a <= b then a else b
  }

  /** The delay before jitter, after the given attempt. */
  function Raw(p: Policy, attempt: nat): real
    requires attempt >= 1
  {
    Least(p.baseMs * Power(p.factor, attempt - 1), p.maxMs)
  }

  /** `Math.round`: to the nearest integer, halves upwards. */
  function Round(x: real): int {
    (x + 0.5).Floor
  }

  function Jittered(raw: real, jitter: real, random: real): real {
    raw + raw * jitter * (random * 2.0 - 1.0)
  }

  /** The policy's answer: a delay, or `None` to let the job fail. `random` is drawn from [0, 1). */
  function Delay(p: Policy, attempt: nat, retryable: bool, random: real): (delay: Option<nat>)
    requires attempt >= 1
  {
    if attempt >= p.maxAttempts || !retryable then None
    else
      Some(Max(0, Round(Jittered(Raw(p, attempt), p.jitter, random))))
  }

  lemma Spread(x: real, swing: real)
    requires x >= 0.0 && -1.0 <= swing <= 1.0
    ensures -x <= x * swing <= x
  {
    assert x * (1.0 - swing) >= 0.0;
    assert x * (1.0 + swing) >= 0.0;
  }

  /**
   * Every delay is within the jitter, and half a millisecond of rounding, of the delay before jitter; a policy
   * whose options make that negative answers no delay at all.
   */
  lemma DelayNearRaw(p: Policy, attempt: nat, random: real)
    requires 1 <= attempt < p.maxAttempts && 0.0 <= p.jitter <= 1.0 && 0.0 <= random < 1.0
    ensures
      var raw := Raw(p, attempt);
      var delay := Delay(p, attempt, true, random).value as real;
      if raw < 0.0 then delay == 0.0
      else raw - raw * p.jitter - 0.5 <= delay <= raw + raw * p.jitter + 0.5
  {
    hide Raw, Jittered, Round;
    var raw := Raw(p, attempt);
    if raw < 0.0 {
      JitterBelow(raw, p.jitter, random);
      RoundBelow(Jittered(raw, p.jitter, random));
    } else {
      JitterNear(raw, p.jitter, random);
      RoundNear(Jittered(raw, p.jitter, random));
    }
  }

  /**
   * The delay moves with `random` in a straight line, to within half a millisecond of rounding: from the delay
   * before jitter less the jitter at 0, through that delay itself at one half, towards that delay plus the jitter.
   */
  lemma DelayMoves(p: Policy, attempt: nat, random: real)
    requires 1 <= attempt < p.maxAttempts && 0.0 <= p.jitter <= 1.0 && 0.0 <= random < 1.0 && Raw(p, attempt) >= 0.0
    ensures
      var raw, swing := Raw(p, attempt), Raw(p, attempt) * p.jitter;
      var delay := Delay(p, attempt, true, random).value as real;
      && raw - swing + 2.0 * swing * random - 0.5 <= delay <= raw - swing + 2.0 * swing * random + 0.5
      && (random == 0.0 ==> raw - swing - 0.5 <= delay <= raw - swing + 0.5)
      && (random == 0.5 ==> raw - 0.5 <= delay <= raw + 0.5)
  {
    hide Raw, Jittered, Round;
    var raw := Raw(p, attempt);
    JitterNear(raw, p.jitter, random);
    RoundNear(Jittered(raw, p.jitter, random));
    JitterLine(raw, p.jitter, random);
  }

  lemma JitterLine(raw: real, jitter: real, random: real)
    ensures Jittered(raw, jitter, random) == raw - raw * jitter + 2.0 * (raw * jitter) * random
  {
    var swing := raw * jitter;
    assert swing * (random * 2.0 - 1.0) == 2.0 * swing * random - swing;
  }

  /** A larger draw never gives a shorter delay. */
  lemma DelayGrows(p: Policy, attempt: nat, low: real, high: real)
    requires 1 <= attempt < p.maxAttempts && p.jitter >= 0.0 && low <= high && Raw(p, attempt) >= 0.0
    ensures Delay(p, attempt, true, low).value <= Delay(p, attempt, true, high).value
  {
    hide Raw;
    var swing := Raw(p, attempt) * p.jitter;
    JitterLine(Raw(p, attempt), p.jitter, low);
    JitterLine(Raw(p, attempt), p.jitter, high);
    assert swing >= 0.0;
    assert swing * (high - low) >= 0.0;
  }

  /** The delay before jitter starts at the base and is the factor times the last, until it meets its ceiling. */
  lemma RawMultiplies(p: Policy, attempt: nat)
    requires attempt >= 1
    ensures Raw(p, 1) == if p.baseMs <= p.maxMs then p.baseMs else p.maxMs
    ensures Raw(p, attempt) < p.maxMs ==>
      Raw(p, attempt + 1) == if p.factor * Raw(p, attempt) <= p.maxMs then p.factor * Raw(p, attempt) else p.maxMs
  {
    var power := Power(p.factor, attempt - 1);
    assert Power(p.factor, attempt) == p.factor * power;
    assert p.baseMs * (p.factor * power) == p.factor * (p.baseMs * power);
  }

  lemma JitterBelow(raw: real, jitter: real, random: real)
    requires raw < 0.0 && 0.0 <= jitter <= 1.0 && 0.0 <= random < 1.0
    ensures Jittered(raw, jitter, random) <= 0.0
  {
    JitterNear(-raw, jitter, random);
    var swing := random * 2.0 - 1.0;
    assert raw * jitter * swing == -((-raw) * jitter * swing);
  }

  lemma RoundBelow(x: real)
    requires x <= 0.0
    ensures Round(x) <= 0
  {
  }

  lemma Share(x: real, part: real)
    requires x >= 0.0 && 0.0 <= part <= 1.0
    ensures 0.0 <= x * part <= x
  {
    assert x * (1.0 - part) >= 0.0;
  }

  lemma JitterNear(raw: real, jitter: real, random: real)
    requires raw >= 0.0 && 0.0 <= jitter <= 1.0 && 0.0 <= random < 1.0
    ensures raw - raw * jitter <= Jittered(raw, jitter, random) <= raw + raw * jitter
    ensures Jittered(raw, jitter, random) >= 0.0
  {
    var width, swing := raw * jitter, random * 2.0 - 1.0;
    Share(raw, jitter);
    assert 0.0 <= width <= raw;
    Spread(width, swing);
    assert Jittered(raw, jitter, random) == raw + width * swing;
  }

  lemma RoundNear(x: real)
    ensures x - 0.5 <= Round(x) as real <= x + 0.5
    ensures x >= 0.0 ==> Round(x) >= 0
  {
  }

  /** The policy answers with a delay exactly while attempts are left and the failure is one worth repeating. */
  lemma DelayGiven(p: Policy, attempt: nat, retryable: bool, random: real)
    requires attempt >= 1
    ensures Delay(p, attempt, retryable, random).Some? <==> attempt < p.maxAttempts && retryable
  {
  }

  lemma {:induction false} PowerGrows(x: real, m: nat, n: nat)
    requires x >= 1.0 && m <= n
    ensures 1.0 <= Power(x, m) <= Power(x, n)
    decreases n
  {
    if n == 0 {
    } else if m == n {
      PowerGrows(x, n - 1, n - 1);
      Scales(x, Power(x, n - 1));
    } else {
      PowerGrows(x, m, n - 1);
      Scales(x, Power(x, n - 1));
    }
  }

  lemma Scales(x: real, y: real)
    requires x >= 1.0 && y >= 1.0
    ensures x * y >= y
  {
    assert (x - 1.0) * y >= 0.0;
  }

  /** The delay before jitter never shrinks from one attempt to a later one, and never passes its ceiling. */
  lemma RawNeverDecreases(p: Policy, a: nat, b: nat)
    requires p.baseMs >= 0.0 && p.factor >= 1.0 && 1 <= a <= b
    ensures Raw(p, a) <= Raw(p, b) <= p.maxMs
    ensures p.maxMs >= 0.0 ==> Raw(p, a) >= 0.0
  {
    PowerGrows(p.factor, a - 1, b - 1);
    var x, y := Power(p.factor, a - 1), Power(p.factor, b - 1);
    assert p.baseMs * (y - x) >= 0.0;
    assert p.baseMs * x >= 0.0;
  }

  /** What this policy answers, the queue may hear: a delay only for a job with attempts left. */
  lemma AnswersAreAllowed(q: QueueSpec.Queue, id: JobId, p: Policy, retryable: bool, random: real)
    requires q.cfg.maxAttempts == Some(p.maxAttempts) && id in q.entries && q.entries[id].attempt >= 1
    ensures Delay(p, q.entries[id].attempt, retryable, random).Some? ==> QueueInvariant.Allowed(q, id)
  {
    DelayGiven(p, q.entries[id].attempt, retryable, random);
  }

  /** Whatever is retryable, and whatever the dice say, this is what the policy answers about the job. */
  ghost predicate Answers(p: Policy, q: QueueSpec.Queue, id: JobId, delayMs: Option<nat>) {
    && id in q.entries && q.entries[id].attempt >= 1
    && exists retryable, random :: 0.0 <= random < 1.0 && delayMs == Delay(p, q.entries[id].attempt, retryable, random)
  }

  /** Every answer the run hears is this policy's, to the attempt count the job had when it was asked. */
  ghost predicate AsksPolicy(p: Policy, q: QueueSpec.Queue, evs: seq<Event>)
    decreases |evs|
  {
    evs != [] ==>
      (evs[0].PolicyReply? ==> Answers(p, q, evs[0].id, evs[0].delayMs)) && AsksPolicy(p, QueueRuns.Step(q, evs[0]), evs[1..])
  }

  /** No answer about a job awaiting one goes unheard. */
  ghost predicate AllHeard(q: QueueSpec.Queue, evs: seq<Event>)
    decreases |evs|
  {
    evs != [] ==>
      && (evs[0].PolicyReply? && evs[0].id in q.deciding && evs[0].id in q.entries && q.entries[evs[0].id].state == Running ==>
           QueueRuns.Enabled(q, evs[0]))
      && AllHeard(QueueRuns.Step(q, evs[0]), evs[1..])
  }

  lemma {:induction false} PolicyHeard(p: Policy, q: QueueSpec.Queue, evs: seq<Event>)
    requires q.cfg.maxAttempts == Some(p.maxAttempts) && QueueInvariant.Inv(q) && AsksPolicy(p, q, evs)
    ensures AllHeard(q, evs)
    decreases |evs|
  {
    hide QueueInvariant.Inv, QueueRuns.Step, Delay;
    if evs != [] {
      QueueRuns.StepInv(q, evs[0]);
      QueueHistory.StepGrows(q, evs[0]);
      SameLimit(q, evs[0]);
      if evs[0].PolicyReply? && evs[0].delayMs.Some? {
        var retryable, random :| 0.0 <= random < 1.0 && evs[0].delayMs == Delay(p, q.entries[evs[0].id].attempt, retryable, random);
        AnswersAreAllowed(q, evs[0].id, p, retryable, random);
      }
      PolicyHeard(p, QueueRuns.Step(q, evs[0]), evs[1..]);
    }
  }

  lemma SameLimit(q: QueueSpec.Queue, ev: Event)
    requires QueueInvariant.Inv(q)
    ensures QueueRuns.Step(q, ev).cfg == q.cfg
  {
    hide QueueInvariant.Inv, QueueRuns.Step, QueueHistory.Grows;
    QueueHistory.StepGrows(q, ev);
    QueueHistory.GrowsAges(q, QueueRuns.Step(q, ev), QueueHistory.Replied(ev));
  }

  /**
   * Retries end. In any run whose retry decisions are all this policy's, every one of them is heard, and a job has
   * its handler called at most max(1, maxAttempts - a) times in the process it entered with attempt count a.
   */
  lemma PolicyEndsRetries(p: Policy, cfg: QueueSpec.Config, paused: bool, evs: seq<Event>, id: JobId)
    requires QueueSpec.ValidConfig(cfg) && cfg.maxAttempts == Some(p.maxAttempts)
    requires AsksPolicy(p, QueueSpec.Fresh(cfg, paused), evs)
    ensures AllHeard(QueueSpec.Fresh(cfg, paused), evs)
    ensures
      var q := QueueTheorems.Reached(cfg, paused, evs);
      id in q.entries ==> 0 <= q.entries[id].attempt - q.entries[id].born <= Max(1, p.maxAttempts - q.entries[id].born)
  {
    hide QueueInvariant.Inv, QueueRuns.Run, AllHeard, AsksPolicy;
    QueueInvariant.FreshInv(cfg, paused);
    PolicyHeard(p, QueueSpec.Fresh(cfg, paused), evs);
    QueueTheorems.RetriesEnd(cfg, paused, evs, id);
  }
}
