/** Draining one socket's send queues into libsrt: the backlog of a message that would have
    blocked, then the application's channel. */
module SendDrain {
  const SEND_CHANNEL_CAPACITY := 8192

  type Message = seq<char>

  /** What one send call answers: taken, would block, or a connection error. */
  datatype Answer = Sent | WouldBlock | Failed

  /** The queues, and the log of what libsrt took. `answers` is what the next send calls will
      answer; a call past its end would block. */
  datatype Queues = Queues(backlog: seq<Message>, channel: seq<Message>, sent: seq<Message>)

  /** One drain: the queues after it, and whether it met a connection error. */
  function Drained(q: Queues, answers: seq<Answer>): (Queues, bool)
    decreases |q.backlog| + |q.channel|
  {
    var a := if answers == [] then WouldBlock else answers[0];
    var rest := if answers == [] then [] else answers[1..];
    if q.backlog != [] then
      match a
      case Sent => Drained(Queues(q.backlog[1..], q.channel, q.sent + [q.backlog[0]]), rest)
      case WouldBlock => (q, false)
      case Failed => (q.(backlog := q.backlog[1..]), true)
    else if q.channel != [] then
      match a
      case Sent => Drained(Queues([], q.channel[1..], q.sent + [q.channel[0]]), rest)
      case WouldBlock => (Queues([q.channel[0]], q.channel[1..], q.sent), false)
      case Failed => (q.(channel := q.channel[1..]), true)
    else (q, false)
  }

  class SendState {
    var backlog: seq<Message>
    var channel: seq<Message>
    ghost var sent: seq<Message>

    ghost function State(): Queues reads this { Queues(backlog, channel, sent) }

    constructor ()
      ensures State() == Queues([], [], [])
    {
      backlog, channel, sent := [], [], [];
    }

    method HandleSend(answers: seq<Answer>) returns (failed: bool)
      modifies this
      ensures (State(), failed) == Drained(old(State()), answers)
    {
      var n := 0;
      ghost var start := State();
      while backlog != []
        invariant n <= |answers|
        invariant Drained(State(), answers[n..]) == Drained(start, answers)
        decreases |backlog|
      {
        ghost var held := State();
        var data := backlog[0];
        backlog := backlog[1..];
        if n == |answers| || answers[n] == WouldBlock {
          backlog := [data] + backlog;
          assert State() == held;
          return false;
        }
        if answers[n] == Failed {
          return true;
        }
        sent := sent + [data];
        n := n + 1;
      }
      while channel != []
        invariant n <= |answers| && backlog == []
        invariant Drained(State(), answers[n..]) == Drained(start, answers)
        decreases |channel|
      {
        var data := channel[0];
        channel := channel[1..];
        if n == |answers| || answers[n] == WouldBlock {
          backlog := backlog + [data];
          assert backlog == [data];
          return false;
        }
        if answers[n] == Failed {
          return true;
        }
        sent := sent + [data];
        n := n + 1;
      }
      return false;
    }
  }

  // ── Runs ──

  datatype Event = Enqueue(m: Message) | Drain(answers: seq<Answer>)

  /** The queues of a run, what the application enqueued, and the drains that failed. */
  datatype Run = Run(q: Queues, enqueued: seq<Message>, failures: nat)

  /** A full channel makes the application wait: nothing happens. */
  function Happen(r: Run, e: Event): Run {
    match e
    case Enqueue(m) =>
      if |r.q.channel| >= SEND_CHANNEL_CAPACITY then r
      else Run(r.q.(channel := r.q.channel + [m]), r.enqueued + [m], r.failures)
    case Drain(answers) =>
      var d := Drained(r.q, answers);
      Run(d.0, r.enqueued, r.failures + if d.1 then 1 else 0)
  }

  function After(events: seq<Event>): Run {
    if events == [] then Run(Queues([], [], []), [], 0)
    else Happen(After(events[..|events| - 1]), events[|events| - 1])
  }

  /** Everything accounted for, in order. */
  function Kept(q: Queues): seq<Message> { q.sent + q.backlog + q.channel }

  /** `s` is `t` with exactly `n` messages left out. */
  ghost predicate Missing(s: seq<Message>, t: seq<Message>, n: nat)
    decreases |t|
  {
    if t == [] then s == [] && n == 0
    else
      var last := |t| - 1;
      || (s != [] && s[|s| - 1] == t[last] && Missing(s[..|s| - 1], t[..last], n))
      || (n > 0 && Missing(s, t[..last], n - 1))
  }

  lemma {:induction false} MissingNone(s: seq<Message>, t: seq<Message>)
    ensures Missing(s, t, 0) <==> s == t
  {
    if t != [] && s != [] { MissingNone(s[..|s| - 1], t[..|t| - 1]); }
  }

  lemma {:induction false} MissingSize(s: seq<Message>, t: seq<Message>, n: nat)
    requires Missing(s, t, n)
    ensures |s| + n == |t|
  {
    if t != [] {
      var last := |t| - 1;
      if s != [] && s[|s| - 1] == t[last] && Missing(s[..|s| - 1], t[..last], n) {
        MissingSize(s[..|s| - 1], t[..last], n);
      } else {
        MissingSize(s, t[..last], n - 1);
      }
    }
  }

  lemma MissingAppend(s: seq<Message>, t: seq<Message>, n: nat, m: Message)
    requires Missing(s, t, n)
    ensures Missing(s + [m], t + [m], n)
  {
    assert (s + [m])[..|s|] == s && (t + [m])[..|t|] == t;
  }

  /** Dropping one more message leaves one more out. */
  lemma {:induction false} MissingDrop(s: seq<Message>, t: seq<Message>, n: nat, i: nat)
    requires Missing(s, t, n) && i < |s|
    ensures Missing(s[..i] + s[i+1..], t, n + 1)
  {
    if t != [] {
      var last, l := |t| - 1, |s| - 1;
      var cut := s[..i] + s[i+1..];
      if s[l] == t[last] && Missing(s[..l], t[..last], n) {
        if i == l {
          assert cut == s[..l];
        } else {
          MissingDrop(s[..l], t[..last], n, i);
          assert cut[..|cut| - 1] == s[..l][..i] + s[..l][i+1..];
        }
      } else {
        MissingDrop(s, t[..last], n - 1, i);
      }
    }
  }

  /** A drain keeps what it holds in order, but for the very message whose send failed; it never
      leaves more than one message in the backlog unless it found more, and it never takes back
      what was sent. */
  lemma {:induction false} DrainKeeps(q: Queues, answers: seq<Answer>)
    ensures var d := Drained(q, answers);
            && |d.0.backlog| <= (if |q.backlog| > 1 then |q.backlog| else 1) && |d.0.channel| <= |q.channel|
            && q.sent <= d.0.sent
            && (!d.1 ==> Kept(d.0) == Kept(q))
            && (d.1 ==>
                  var i := |d.0.sent|;
                  i < |Kept(q)| && Kept(d.0) == Kept(q)[..i] + Kept(q)[i+1..])
    decreases |q.backlog| + |q.channel|
  {
    hide Kept;
    if q.backlog != [] {
      BacklogKept(q);
      if answers != [] && answers[0] == Sent {
        DrainKeeps(Queues(q.backlog[1..], q.channel, q.sent + [q.backlog[0]]), answers[1..]);
      }
    } else if q.channel != [] {
      ChannelKept(q);
      if answers != [] && answers[0] == Sent {
        DrainKeeps(Queues([], q.channel[1..], q.sent + [q.channel[0]]), answers[1..]);
      }
    }
  }

  /** Taking the first message of the backlog: sent it is kept, failed it alone is missing. */
  lemma BacklogKept(q: Queues)
    requires q.backlog != []
    ensures Kept(Queues(q.backlog[1..], q.channel, q.sent + [q.backlog[0]])) == Kept(q)
    ensures |q.sent| < |Kept(q)|
    ensures Kept(q.(backlog := q.backlog[1..])) == Kept(q)[..|q.sent|] + Kept(q)[|q.sent|+1..]
  {
  }

  /** The same of the channel, whose first message moves to the backlog if it would block. */
  lemma ChannelKept(q: Queues)
    requires q.backlog == [] && q.channel != []
    ensures Kept(Queues([], q.channel[1..], q.sent + [q.channel[0]])) == Kept(q)
    ensures Kept(Queues([q.channel[0]], q.channel[1..], q.sent)) == Kept(q)
    ensures |q.sent| < |Kept(q)|
    ensures Kept(q.(channel := q.channel[1..])) == Kept(q)[..|q.sent|] + Kept(q)[|q.sent|+1..]
  {
  }

  /** How many send calls succeed before the first that does not. */
  ghost function Streak(answers: seq<Answer>): nat {
    if answers == [] || answers[0] != Sent then 0 else 1 + Streak(answers[1..])
  }

  /** How far a drain gets: it hands over messages until one is refused or none is left, fails
      exactly when the refusal is a connection error, and a message that would block is the one
      the backlog holds next; but for what it held before, it holds none otherwise. */
  lemma {:induction false} DrainGoesOn(q: Queues, answers: seq<Answer>)
    ensures var (d, failed) := Drained(q, answers);
            var n, held := Streak(answers), |q.backlog| + |q.channel|;
            && |d.sent| == |q.sent| + (if n < held then n else held)
            && (n >= held ==> d.backlog == [] && d.channel == [] && !failed)
            && (n < held ==> (failed <==> n < |answers| && answers[n] == Failed))
            && (|q.backlog| <= n < held ==> |d.backlog| == if failed then 0 else 1)
            && (n < |q.backlog| ==> |d.backlog| == |q.backlog| - n - if failed then 1 else 0)
    decreases |q.backlog| + |q.channel|
  {
    if answers != [] && answers[0] == Sent {
      if q.backlog != [] {
        DrainGoesOn(Queues(q.backlog[1..], q.channel, q.sent + [q.backlog[0]]), answers[1..]);
      } else if q.channel != [] {
        DrainGoesOn(Queues([], q.channel[1..], q.sent + [q.channel[0]]), answers[1..]);
      }
    }
  }

  /** The application's messages go to the back of the channel while it holds fewer than 8192. */
  lemma EnqueueAppends(r: Run, m: Message)
    ensures var t := Happen(r, Enqueue(m));
            && t.q.sent == r.q.sent && t.q.backlog == r.q.backlog && t.failures == r.failures
            && var room := |r.q.channel| < 8192;
               && t.q.channel == (if room then r.q.channel + [m] else r.q.channel)
               && t.enqueued == (if room then r.enqueued + [m] else r.enqueued)
  {
  }

  ghost predicate Conserved(r: Run) {
    && Missing(Kept(r.q), r.enqueued, r.failures)
    && |r.q.backlog| <= 1
    && |r.q.channel| <= SEND_CHANNEL_CAPACITY
  }

  lemma HappenConserves(r: Run, e: Event)
    requires Conserved(r)
    ensures Conserved(Happen(r, e))
  {
    hide Missing;
    match e
    case Enqueue(m) =>
      if |r.q.channel| < SEND_CHANNEL_CAPACITY {
        MissingAppend(Kept(r.q), r.enqueued, r.failures, m);
        assert Kept(Happen(r, e).q) == Kept(r.q) + [m];
      }
    case Drain(answers) =>
      DrainKeeps(r.q, answers);
      var d := Drained(r.q, answers);
      if d.1 {
        MissingDrop(Kept(r.q), r.enqueued, r.failures, |d.0.sent|);
      }
      hide Kept, Drained;
  }

  lemma {:induction false} RunConserves(events: seq<Event>)
    ensures Conserved(After(events))
  {
    if events != [] {
      RunConserves(events[..|events| - 1]);
      HappenConserves(After(events[..|events| - 1]), events[|events| - 1]);
      hide Conserved, Happen;
    } else {
      assert Kept(After([]).q) == [];
    }
  }

  /** Conservation over every run: sent, backlog and channel together are the enqueued messages
      in order, with exactly one left out for each drain that failed. */
  lemma SendConserves(events: seq<Event>)
    ensures var r := After(events);
            && Missing(Kept(r.q), r.enqueued, r.failures)
            && |Kept(r.q)| + r.failures == |r.enqueued|
            && (r.failures == 0 ==> Kept(r.q) == r.enqueued)
            && |r.q.backlog| <= 1
            && |r.q.channel| <= SEND_CHANNEL_CAPACITY
  {
    var r := After(events);
    RunConserves(events);
    hide After, Kept;
    MissingSize(Kept(r.q), r.enqueued, r.failures);
    if r.failures == 0 { MissingNone(Kept(r.q), r.enqueued); }
  }
}
