/**
 The producer: paced generation, delivery callbacks, and the dead letters of
 whatever could not be delivered. The client library is two queues of messages
 in flight, events and dead letters, whose fate is decided later in any order.
 A dead letter is counted when it is enqueued, and has no callback: nobody is
 told what became of it.
 */
module Producer {
  import opened Options
  import opened Seqs
  import opened Events
  import opened Dlq
  import opened Retry

  /** What the client settles: an event, with its delivery callback, or a dead letter, with none. */
  datatype Report = OfEvent(slot: nat, error: Option<string>) | OfDeadLetter(slot: nat, arrives: bool)

  datatype Failure = Failure(payload: Message, reason: string)

  /**
   How one `_send` goes: its attempts, what the client settles while a full
   local queue is polled, and whether the dead-letter produce would raise.
   */
  datatype SendScript = SendScript(attempts: seq<Outcome>, waits: seq<real>, reports: seq<Report>, dlqRaises: bool)

  function Without<T>(s: seq<T>, i: nat): seq<T>
    requires i < |s|
  {
    s[..i] + s[i + 1..]
  }

  /**
   The runner's counters and failures, the client's queues, and the two topics.
   `submitted` is all that `_send` took care of, `lost` what the dead-letter
   produce refused, which is logged, `sunk` the dead letters that were enqueued
   and never arrived, which nothing records.
   */
  datatype Desk = Desk(sent: nat, acked: nat, failed: nat, dlqCount: nat, failures: seq<Failure>,
                       inFlight: seq<Message>, letters: seq<DlqRecord>, submitted: seq<Message>,
                       delivered: seq<Message>, dlq: seq<DlqRecord>, sunk: seq<DlqRecord>, lost: seq<Message>)
  {
    /** `_on_delivery`, or the silent end of a dead letter. */
    function Reported(r: Report): Desk {
      match r
      case OfEvent(slot, error) =>
        if slot >= |inFlight| then this
        else
          var m, rest := inFlight[slot], Without(inFlight, slot);
          if error.Some?
          then this.(failed := failed + 1, failures := failures + [Failure(m, error.value)], inFlight := rest)
          else this.(acked := acked + 1, delivered := delivered + [m], inFlight := rest)
      case OfDeadLetter(slot, arrives) =>
        if slot >= |letters| then this
        else
          var letter, rest := letters[slot], Without(letters, slot);
          if arrives then this.(dlq := dlq + [letter], letters := rest)
          else this.(sunk := sunk + [letter], letters := rest)
    }

    /** `poll`: what is settled, in the order it happens. */
    function Polled(reports: seq<Report>): Desk
      decreases |reports|
    {
      if reports == [] then this else Reported(reports[0]).Polled(reports[1..])
    }

    /** `_to_dlq`; a record the client refuses is lost, and logged as lost. */
    function Quarantined(m: Message, reason: string, retries: int, raises: bool): Desk {
      if raises then this.(lost := lost + [m])
      else this.(letters := letters + [BuildRecord(m, reason, StageProducer, retries)], dlqCount := dlqCount + 1)
    }

    /** The first `n` of the failures taken down are quarantined one after the other. */
    function QuarantinedAll(pending: seq<Failure>, n: nat, retries: int, raises: seq<bool>): Desk
      requires n <= |pending|
    {
      if n == 0 then this
      else QuarantinedAll(pending, n - 1, retries, raises)
             .Quarantined(pending[n - 1].payload, pending[n - 1].reason, retries, Nth(raises, n - 1, false))
    }

    function Drained(retries: int, raises: seq<bool>): Desk {
      this.(failures := []).QuarantinedAll(failures, |failures|, retries, raises)
    }

    function Sent(m: Message, script: SendScript, budget: nat): Desk
      requires budget > 0
    {
      var polled := Polled(script.reports);
      var taken := polled.(submitted := polled.submitted + [m]);
      match CallOutcome(script.attempts, budget)
      case Succeeded => taken.(inFlight := polled.inFlight + [m], sent := polled.sent + 1)
      case Exhausted(attempts, error) => taken.Quarantined(m, error, attempts, script.dlqRaises)
      case Propagated(error) => polled
    }

    // ---------------------------------------------------------- conservation

    /** What was made a dead letter, or lost in the attempt. */
    ghost function Buried(): multiset<Message> {
      multiset(Originals(letters)) + multiset(Originals(dlq)) + multiset(Originals(sunk)) + multiset(lost)
    }

    /**
     Everything submitted is in exactly one place: in flight, delivered, waiting
     to be quarantined, a dead letter under way, arrived or sunk, or lost.
     */
    ghost predicate Conserved() {
      && multiset(submitted) == multiset(inFlight) + multiset(delivered) + multiset(Payloads(failures)) + Buried()
      && acked == |delivered| && dlqCount == |letters| + |dlq| + |sunk|
      && sent == |inFlight| + acked + failed
    }
  }

  const FRESH_DESK := Desk(0, 0, 0, 0, [], [], [], [], [], [], [], [])

  function Payloads(failures: seq<Failure>): (r: seq<Message>)
    ensures |r| == |failures| && forall i | 0 <= i < |r| :: r[i] == failures[i].payload
  {
    seq(|failures|, i requires 0 <= i < |failures| => failures[i].payload)
  }

  function Originals(dlq: seq<DlqRecord>): (r: seq<Message>)
    ensures |r| == |dlq| && forall i | 0 <= i < |r| :: r[i] == dlq[i].originalPayload
  {
    seq(|dlq|, i requires 0 <= i < |dlq| => dlq[i].originalPayload)
  }

  lemma TakeOut(s: seq<Message>, i: nat)
    requires i < |s|
    ensures multiset(s) == multiset(Without(s, i)) + multiset{s[i]} && |s| == |Without(s, i)| + 1
  {
    assert s == s[..i] + [s[i]] + s[i + 1..];
  }

  lemma TakeOutLetter(s: seq<DlqRecord>, i: nat)
    requires i < |s|
    ensures multiset(Originals(s)) == multiset(Originals(Without(s, i))) + multiset{s[i].originalPayload}
  {
    assert Originals(Without(s, i)) == Without(Originals(s), i);
    TakeOut(Originals(s), i);
  }

  lemma OriginalsSnoc(s: seq<DlqRecord>, letter: DlqRecord)
    ensures multiset(Originals(s + [letter])) == multiset(Originals(s)) + multiset{letter.originalPayload}
  {
    assert Originals(s + [letter]) == Originals(s) + [letter.originalPayload];
  }

  lemma Move(a: multiset<Message>, one: multiset<Message>, b: multiset<Message>, c: multiset<Message>,
             d: multiset<Message>)
    ensures (a + one) + b + c + d == a + (b + one) + c + d == a + b + (c + one) + d
  {
  }

  lemma AckConserves(d: Desk, m: Message, rest: seq<Message>)
    requires d.Conserved() && multiset(d.inFlight) == multiset(rest) + multiset{m} && |d.inFlight| == |rest| + 1
    ensures d.(acked := d.acked + 1, delivered := d.delivered + [m], inFlight := rest).Conserved()
  {
    var after := d.(acked := d.acked + 1, delivered := d.delivered + [m], inFlight := rest);
    assert after.Buried() == d.Buried();
    hide Desk.Buried, Payloads;
    Move(multiset(rest), multiset{m}, multiset(d.delivered), multiset(Payloads(d.failures)), d.Buried());
  }

  lemma FailureConserves(d: Desk, m: Message, rest: seq<Message>, error: string)
    requires d.Conserved() && multiset(d.inFlight) == multiset(rest) + multiset{m} && |d.inFlight| == |rest| + 1
    ensures d.(failed := d.failed + 1, failures := d.failures + [Failure(m, error)], inFlight := rest).Conserved()
  {
    var after := d.(failed := d.failed + 1, failures := d.failures + [Failure(m, error)], inFlight := rest);
    assert after.Buried() == d.Buried();
    assert Payloads(after.failures) == Payloads(d.failures) + [m];
    hide Desk.Buried, Payloads;
    Move(multiset(rest), multiset{m}, multiset(d.delivered), multiset(Payloads(d.failures)), d.Buried());
  }

  lemma EventReportConserves(d: Desk, slot: nat, error: Option<string>)
    requires d.Conserved()
    ensures d.Reported(OfEvent(slot, error)).Conserved()
  {
    if slot < |d.inFlight| {
      var m, rest := d.inFlight[slot], Without(d.inFlight, slot);
      TakeOut(d.inFlight, slot);
      if error.None? {
        AckConserves(d, m, rest);
      } else {
        FailureConserves(d, m, rest, error.value);
      }
    }
  }

  lemma LetterReportConserves(d: Desk, slot: nat, arrives: bool)
    requires d.Conserved()
    ensures d.Reported(OfDeadLetter(slot, arrives)).Conserved()
  {
    if slot < |d.letters| {
      var letter, rest := d.letters[slot], Without(d.letters, slot);
      var after := d.Reported(OfDeadLetter(slot, arrives));
      TakeOutLetter(d.letters, slot);
      OriginalsSnoc(if arrives then d.dlq else d.sunk, letter);
      assert |rest| == |d.letters| - 1;
      assert after.Buried() == d.Buried() by {
        hide Originals, Without, Payloads;
        Move(multiset(Originals(rest)), multiset{letter.originalPayload}, multiset(Originals(d.dlq)),
             multiset(Originals(d.sunk)), multiset(d.lost));
      }
      hide Desk.Buried, Without, Payloads, Originals;
    }
  }

  lemma ReportedConserves(d: Desk, r: Report)
    requires d.Conserved()
    ensures d.Reported(r).Conserved()
  {
    hide Desk.Conserved, Desk.Reported;
    match r
    case OfEvent(slot, error) => EventReportConserves(d, slot, error);
    case OfDeadLetter(slot, arrives) => LetterReportConserves(d, slot, arrives);
  }

  lemma {:induction false} PolledConserves(d: Desk, reports: seq<Report>)
    requires d.Conserved()
    ensures d.Polled(reports).Conserved() && d.Polled(reports).submitted == d.submitted
    ensures d.Polled(reports).lost == d.lost && d.Polled(reports).dlqCount == d.dlqCount
    decreases |reports|
  {
    hide Desk.Conserved;
    if reports != [] {
      ReportedConserves(d, reports[0]);
      PolledConserves(d.Reported(reports[0]), reports[1..]);
    }
  }

  /** Quarantining a message puts it in one place and leaves everything else alone. */
  lemma QuarantinedPlaces(d: Desk, m: Message, reason: string, retries: int, raises: bool)
    ensures var after := d.Quarantined(m, reason, retries, raises);
      && after.Buried() == d.Buried() + multiset{m}
      && after == d.(letters := after.letters, dlqCount := after.dlqCount, lost := after.lost)
      && after.dlqCount - d.dlqCount == |after.letters| - |d.letters|
      && after.lost == if raises then d.lost + [m] else d.lost
  {
    if !raises { OriginalsSnoc(d.letters, BuildRecord(m, reason, StageProducer, retries)); }
    hide Originals;
  }

  ghost predicate NoneRaises(raises: seq<bool>) { forall i | 0 <= i < |raises| :: !raises[i] }

  lemma {:induction false} QuarantinedAllPlaces(d: Desk, pending: seq<Failure>, n: nat, retries: int, raises: seq<bool>)
    requires n <= |pending|
    ensures var after := d.QuarantinedAll(pending, n, retries, raises);
      && after.Buried() == d.Buried() + multiset(Payloads(pending[..n]))
      && after == d.(letters := after.letters, dlqCount := after.dlqCount, lost := after.lost)
      && after.dlqCount - d.dlqCount == |after.letters| - |d.letters|
      && (NoneRaises(raises) ==> after.lost == d.lost)
  {
    hide Desk.Quarantined, Desk.Buried;
    if n > 0 {
      var before := d.QuarantinedAll(pending, n - 1, retries, raises);
      var f := pending[n - 1];
      QuarantinedAllPlaces(d, pending, n - 1, retries, raises);
      QuarantinedPlaces(before, f.payload, f.reason, retries, Nth(raises, n - 1, false));
      assert Payloads(pending[..n]) == Payloads(pending[..n - 1]) + [f.payload];
    } else {
      assert Payloads(pending[..0]) == [];
    }
  }

  lemma DrainedConserves(d: Desk, retries: int, raises: seq<bool>)
    requires d.Conserved()
    ensures d.Drained(retries, raises).Conserved()
    ensures d.Drained(retries, raises).submitted == d.submitted
    ensures d.Drained(retries, raises).failures == [] && d.Drained(retries, raises).inFlight == d.inFlight
    ensures NoneRaises(raises) ==> d.Drained(retries, raises).lost == d.lost
  {
    var taken := d.(failures := []);
    QuarantinedAllPlaces(taken, d.failures, |d.failures|, retries, raises);
    assert d.failures[..|d.failures|] == d.failures;
    assert Payloads([]) == [];
    assert taken.Buried() == d.Buried();
    hide Desk.QuarantinedAll, Desk.Buried, Payloads;
    Shuffle(multiset(d.inFlight) + multiset(d.delivered), multiset(Payloads(d.failures)), d.Buried());
  }

  lemma Shuffle(x: multiset<Message>, p: multiset<Message>, q: multiset<Message>)
    ensures x + p + q == x + multiset{} + (q + p) == p + (x + q)
  {
  }

  lemma EnqueuedConserves(d: Desk, m: Message)
    requires d.Conserved()
    ensures d.(submitted := d.submitted + [m], inFlight := d.inFlight + [m], sent := d.sent + 1).Conserved()
  {
    var after := d.(submitted := d.submitted + [m], inFlight := d.inFlight + [m], sent := d.sent + 1);
    assert after.Buried() == d.Buried();
    var one, delivered, waiting := multiset{m}, multiset(d.delivered), multiset(Payloads(d.failures));
    hide Desk.Buried, Payloads;
    assert multiset(after.submitted) == multiset(d.submitted) + one;
    assert multiset(after.inFlight) == multiset(d.inFlight) + one;
    Slide(multiset(d.inFlight), one, delivered, waiting, d.Buried());
  }

  lemma Slide(a: multiset<Message>, one: multiset<Message>, b: multiset<Message>, c: multiset<Message>,
              d: multiset<Message>)
    ensures a + b + c + d + one == (a + one) + b + c + d == a + b + c + (d + one)
  {
  }

  lemma ExhaustedConserves(d: Desk, m: Message, error: string, attempts: nat, raises: bool)
    requires d.Conserved()
    ensures d.(submitted := d.submitted + [m]).Quarantined(m, error, attempts, raises).Conserved()
  {
    var taken := d.(submitted := d.submitted + [m]);
    var after := taken.Quarantined(m, error, attempts, raises);
    QuarantinedPlaces(taken, m, error, attempts, raises);
    assert taken.Buried() == d.Buried();
    var one, delivered, waiting := multiset{m}, multiset(d.delivered), multiset(Payloads(d.failures));
    hide Desk.Buried, Desk.Quarantined, Payloads;
    assert multiset(after.submitted) == multiset(d.submitted) + one;
    Slide(multiset(d.inFlight), one, delivered, waiting, d.Buried());
  }

  lemma SentConserves(d: Desk, m: Message, script: SendScript, budget: nat)
    requires budget > 0 && d.Conserved()
    ensures d.Sent(m, script, budget).Conserved()
    ensures d.Sent(m, script, budget).submitted
         == if CallOutcome(script.attempts, budget).Propagated? then d.submitted else d.submitted + [m]
    ensures !script.dlqRaises ==> d.Sent(m, script, budget).lost == d.lost
  {
    var polled := d.Polled(script.reports);
    PolledConserves(d, script.reports);
    hide Desk.Polled, Desk.Conserved, CallOutcome, BuildRecord;
    match CallOutcome(script.attempts, budget)
    case Succeeded => EnqueuedConserves(polled, m);
    case Exhausted(attempts, error) => ExhaustedConserves(polled, m, error, attempts, script.dlqRaises);
    case Propagated(error) =>
  }

  /**
   A send read off its attempts. The first that is not a transient failure, or the
   last the policy allows, decides: the event joins the queue, or a dead letter
   with the attempts made and the last error does, or nothing happens.
   */
  lemma SendIsDecided(d: Desk, m: Message, script: SendScript, p: Policy, n: nat)
    requires Transients(script.attempts, n) && (n == 0 || n < p.maxAttempts)
    ensures var polled, after, s := d.Polled(script.reports), d.Sent(m, script, p.Budget()), script.attempts;
      var taken := polled.(submitted := polled.submitted + [m]);
      if n == |s| || s[n].Ok? then after == taken.(inFlight := polled.inFlight + [m], sent := polled.sent + 1)
      else
        && (s[n].kind == Permanent || (s[n].kind == Transient && n + 1 >= p.maxAttempts) ==>
            if script.dlqRaises then after == taken.(lost := polled.lost + [m])
            else after == taken.(letters := polled.letters + [BuildRecord(m, s[n].name, StageProducer, n + 1)],
                                 dlqCount := polled.dlqCount + 1))
        && (s[n].kind == Unexpected ==> after == polled)
  {
    hide Desk.Polled, CallStats, CallOutcome, BuildRecord;
    CallIsDecided(script.attempts, p, [], n);
  }

  /** The dead letters of the failures drained, in order; with none refused they are all enqueued. */
  function LettersFor(pending: seq<Failure>, n: nat, retries: int): seq<DlqRecord>
    requires n <= |pending|
  {
    seq(n, i requires 0 <= i < n => BuildRecord(pending[i].payload, pending[i].reason, StageProducer, retries))
  }

  lemma {:induction false} QuarantinedAllMeans(d: Desk, pending: seq<Failure>, n: nat, retries: int, raises: seq<bool>)
    requires n <= |pending| && NoneRaises(raises)
    ensures d.QuarantinedAll(pending, n, retries, raises)
         == d.(letters := d.letters + LettersFor(pending, n, retries), dlqCount := d.dlqCount + n)
  {
    hide BuildRecord;
    if n > 0 {
      QuarantinedAllMeans(d, pending, n - 1, retries, raises);
      var f := pending[n - 1];
      assert LettersFor(pending, n, retries)
          == LettersFor(pending, n - 1, retries) + [BuildRecord(f.payload, f.reason, StageProducer, retries)];
      ConcatAssociates(d.letters, LettersFor(pending, n - 1, retries),
                       [BuildRecord(f.payload, f.reason, StageProducer, retries)]);
    }
  }

  /** A drain with no refusal makes every failure pending a dead letter with its own reason. */
  lemma DrainMeans(d: Desk, retries: int, raises: seq<bool>)
    requires NoneRaises(raises)
    ensures d.Drained(retries, raises) ==
            d.(failures := [], letters := d.letters + LettersFor(d.failures, |d.failures|, retries),
               dlqCount := d.dlqCount + |d.failures|)
  {
    QuarantinedAllMeans(d.(failures := []), d.failures, |d.failures|, retries, raises);
  }

  /** What the books say in numbers, which is about counters: a dead letter counts from the moment it is enqueued. */
  lemma ConservedCounts(d: Desk)
    requires d.Conserved()
    ensures |d.submitted| == d.acked + d.dlqCount + |d.inFlight| + |d.failures| + |d.lost|
    ensures |d.submitted| == d.acked + d.dlqCount <==> d.inFlight == [] && d.failures == [] && d.lost == []
  {
    assert |multiset(d.submitted)| == |d.submitted|;
    assert |d.Buried()| == |Originals(d.letters)| + |Originals(d.dlq)| + |Originals(d.sunk)| + |d.lost|;
    assert |multiset(d.submitted)| == |d.inFlight| + |d.delivered| + |Payloads(d.failures)| + |d.Buried()|;
  }

  /** The topics hold what was submitted only if, besides, every dead letter has arrived. */
  lemma TopicsHoldAll(d: Desk)
    requires d.Conserved()
    ensures multiset(d.submitted) == multiset(d.delivered) + multiset(Originals(d.dlq))
       <==> |d.submitted| == d.acked + d.dlqCount && d.letters == [] && d.sunk == []
  {
    ConservedCounts(d);
    assert |multiset(d.submitted)| == |d.submitted|;
    assert |multiset(d.delivered) + multiset(Originals(d.dlq))| == |d.delivered| + |Originals(d.dlq)|;
    if d.inFlight == [] && d.failures == [] && d.lost == [] && d.letters == [] && d.sunk == [] {
      assert Payloads([]) == [] && Originals([]) == [];
    }
  }

  /** No counter and no list of the runner tells a dead letter that arrives from one that does not. */
  lemma LetterFateIsUnseen(d: Desk, slot: nat)
    requires slot < |d.letters|
    ensures var arrived, sunk := d.Reported(OfDeadLetter(slot, true)), d.Reported(OfDeadLetter(slot, false));
      && sunk == arrived.(dlq := d.dlq, sunk := d.sunk + [d.letters[slot]])
      && arrived.dlq == d.dlq + [d.letters[slot]]
  {
  }

  // ------------------------------------------------------------ the runner

  class ProducerRunner {
    const policy: Policy
    const stats: RetryStats
    var sent: nat
    var acked: nat
    var failed: nat
    var dlqCount: nat
    var failedPayloads: seq<Failure>
    var inFlight: seq<Message>
    var letters: seq<DlqRecord>
    var submitted: seq<Message>
    var delivered: seq<Message>
    var dlq: seq<DlqRecord>
    var sunk: seq<DlqRecord>
    var lost: seq<Message>

    function Books(): Desk
      reads this
    {
      Desk(sent, acked, failed, dlqCount, failedPayloads, inFlight, letters, submitted, delivered, dlq, sunk, lost)
    }

    constructor (policy: Policy)
      ensures this.policy == policy && fresh(stats) && stats.Value() == NO_STATS && Books() == FRESH_DESK
    {
      this.policy := policy;
      stats := new RetryStats();
      sent, acked, failed, dlqCount := 0, 0, 0, 0;
      failedPayloads, inFlight, letters, submitted := [], [], [], [];
      delivered, dlq, sunk, lost := [], [], [], [];
    }

    method OnDelivery(m: Message, error: Option<string>)
      modifies this
      ensures Books() == if error.Some?
        then old(Books()).(failed := old(failed) + 1, failures := old(failedPayloads) + [Failure(m, error.value)])
        else old(Books()).(acked := old(acked) + 1, delivered := old(delivered) + [m])
    {
      if error.Some? {
        failed := failed + 1;
        failedPayloads := failedPayloads + [Failure(m, error.value)];
        return;
      }
      acked, delivered := acked + 1, delivered + [m];
    }

    /** An event leaves the client with a callback, a dead letter without. */
    method Settle(r: Report)
      modifies this
      ensures Books() == old(Books()).Reported(r)
    {
      match r
      case OfEvent(slot, error) =>
        if slot < |inFlight| {
          var m := inFlight[slot];
          inFlight := Without(inFlight, slot);
          OnDelivery(m, error);
        }
      case OfDeadLetter(slot, arrives) =>
        if slot < |letters| {
          var letter := letters[slot];
          letters := Without(letters, slot);
          if arrives { dlq := dlq + [letter]; } else { sunk := sunk + [letter]; }
        }
    }

    method Poll(reports: seq<Report>)
      modifies this
      ensures Books() == old(Books()).Polled(reports)
    {
      var i := 0;
      while i < |reports|
        invariant i <= |reports|
        invariant Books().Polled(reports[i..]) == old(Books()).Polled(reports)
      {
        var r := reports[i];
        Settle(r);
        assert reports[i..][0] == r && reports[i..][1..] == reports[i + 1..];
        i := i + 1;
      }
    }

    method ToDlq(m: Message, reason: string, retries: int, raises: bool)
      modifies this
      ensures Books() == old(Books()).Quarantined(m, reason, retries, raises)
    {
      var rec := BuildRecord(m, reason, StageProducer, retries);
      if raises {
        lost := lost + [m];
      } else {
        letters, dlqCount := letters + [rec], dlqCount + 1;
      }
    }

    method DrainFailures(retries: int, raises: seq<bool>)
      modifies this
      ensures Books() == old(Books()).Drained(retries, raises)
    {
      hide Desk.Quarantined;
      var pending := failedPayloads;
      failedPayloads := [];
      ghost var taken := Books();
      for i := 0 to |pending|
        invariant Books() == taken.QuarantinedAll(pending, i, retries, raises)
      {
        ToDlq(pending[i].payload, pending[i].reason, retries, Nth(raises, i, false));
      }
    }

    /** The error is an exception the retry helper does not catch. */
    method Send(m: Message, script: SendScript) returns (error: Option<string>)
      modifies this, stats
      ensures Books() == old(Books()).Sent(m, script, policy.Budget())
      ensures stats.Value() == Merged(old(stats.Value()), CallStats(script.attempts, policy.Budget(), script.waits))
      ensures error.Some? <==> CallOutcome(script.attempts, policy.Budget()).Propagated?
    {
      hide CallOutcome, CallStats, Desk.Polled, Desk.Quarantined, Merged;
      Poll(script.reports);
      var result, _ := CallWithRetry(script.attempts, policy, script.waits, stats);
      match result
      case Succeeded =>
        inFlight, submitted, sent := inFlight + [m], submitted + [m], sent + 1;
        error := None;
      case Exhausted(attempts, last) =>
        submitted := submitted + [m];
        ToDlq(m, last, attempts, script.dlqRaises);
        error := None;
      case Propagated(name) =>
        error := Some(name);
    }
  }
}
