/**
 * The per-key chains of pending actions, as values. A key's chain lists its
 * actions head first: the head is the one running or about to run, the last
 * is the key's tail. A key has an entry only while its chain is not empty.
 */
module KeyQueue {
  import opened Values

  /** Identifies one enqueued action, and so the promise its caller holds. */
  type Ticket = nat

  datatype Job<A> = Job(ticket: Ticket, action: A)

  type Chains<A> = map<Key, seq<Job<A>>>

  /** The actions waiting for `k`, head first. */
  function Pending<A>(q: Chains<A>, k: Key): seq<Job<A>>
  {
    if k in q then q[k] else []
  }

  /** Installs `j` as the new tail of `k`, behind its current tail. */
  function Pushed<A>(q: Chains<A>, k: Key, j: Job<A>): (r: Chains<A>)
    ensures Pending(r, k) == Pending(q, k) + [j]
    ensures forall k' :: k' != k ==> Pending(r, k') == Pending(q, k')
    ensures r.Keys == q.Keys + {k}
  {
    q[k := Pending(q, k) + [j]]
  }

  /** Retires the head of `k`'s chain. The entry goes when the chain drains. */
  function Popped<A>(q: Chains<A>, k: Key): (r: Chains<A>)
    requires Pending(q, k) != []
    ensures Pending(r, k) == Pending(q, k)[1..]
    ensures forall k' :: k' != k ==> Pending(r, k') == Pending(q, k')
    ensures k in r <==> |Pending(q, k)| > 1
    ensures r.Keys <= q.Keys
  {
    if |q[k]| == 1 then q - {k} else q[k := q[k][1..]]
  }

  /** A key that had no work and gets one action drops out again once that
      action has run: the chains are as before. */
  lemma PushThenPopRestores<A>(q: Chains<A>, k: Key, j: Job<A>)
    requires k !in q
    ensures Popped(Pushed(q, k, j), k) == q
  {
    assert Pending(q, k) + [j] == [j];
    assert Pushed(q, k, j) == q[k := [j]];
    assert q[k := [j]] - {k} == q;
  }

  /** Tickets are handed out in increasing order: each action of a chain
      has a larger ticket than the one before it. */
  ghost predicate Increasing<A>(s: seq<Job<A>>)
    decreases |s|
  {
    |s| <= 1 || (s[0].ticket < s[1].ticket && Increasing(s[1..]))
  }

  /** In an increasing chain every earlier action has a smaller ticket. */
  lemma {:induction false} IncreasingOrders<A>(s: seq<Job<A>>, i: nat, j: nat)
    requires Increasing(s) && i < j < |s|
    ensures s[i].ticket < s[j].ticket
    decreases j
  {
    if i == 0 && j == 1 {
    } else if i == 0 {
      IncreasingOrders(s, 0, j - 1);
      IncreasingOrders(s[1..], j - 2, j - 1);
    } else {
      IncreasingOrders(s[1..], i - 1, j - 1);
    }
  }

  /** Appending a larger ticket keeps a chain increasing. */
  lemma {:induction false} IncreasingPush<A>(s: seq<Job<A>>, j: Job<A>)
    requires Increasing(s) && (s != [] ==> s[|s| - 1].ticket < j.ticket)
    ensures Increasing(s + [j])
    decreases |s|
  {
    if |s| > 1 {
      IncreasingPush(s[1..], j);
      assert (s + [j])[1..] == s[1..] + [j];
    }
  }

  /** One key's chain is not empty, ends with the action `tail` and holds
      increasing tickets below `next`. */
  ghost predicate ChainFits<A>(s: seq<Job<A>>, tail: Ticket, next: Ticket)
  {
    && s != []
    && s[|s| - 1].ticket == tail
    && tail < next
    && Increasing(s)
  }

  /** `tails` (the source's `queueForKey`) names, for every key with pending
      work, the ticket of that key's last action; every ticket is below
      `next`; keys without work have neither a chain nor a tail. */
  ghost predicate Tracks<A>(q: Chains<A>, tails: map<Key, Ticket>, next: Ticket)
  {
    && q.Keys == tails.Keys
    && forall k :: k in q ==> ChainFits(q[k], tails[k], next)
  }

  /** The cleanup test of the source: the stored tail is still the action
      that just settled exactly when that action was the last one queued, so
      an entry with newer work behind it is never removed. */
  lemma {:induction false} TailIsHeadIffLast<A>(q: Chains<A>, tails: map<Key, Ticket>, next: Ticket, k: Key)
    requires Tracks(q, tails, next) && k in q
    ensures tails[k] == q[k][0].ticket <==> |q[k]| == 1
  {
    assert ChainFits(q[k], tails[k], next);
    if |q[k]| > 1 {
      IncreasingOrders(q[k], 0, |q[k]| - 1);
    }
  }

  lemma ChainFitsLater<A>(s: seq<Job<A>>, tail: Ticket, next: Ticket, later: Ticket)
    requires ChainFits(s, tail, next) && next <= later
    ensures ChainFits(s, tail, later)
  {
  }

  lemma ChainFitsPush<A>(s: seq<Job<A>>, tail: Ticket, next: Ticket, a: A)
    requires s == [] || ChainFits(s, tail, next)
    ensures ChainFits(s + [Job(next, a)], next, next + 1)
  {
    IncreasingPush(s, Job(next, a));
  }

  lemma ChainFitsPop<A>(s: seq<Job<A>>, tail: Ticket, next: Ticket)
    requires ChainFits(s, tail, next) && |s| > 1
    ensures ChainFits(s[1..], tail, next)
  {
  }

  /** Enqueueing with the next ticket keeps the tails in step and the ticket
      order increasing. */
  lemma PushKeepsTracks<A>(q: Chains<A>, tails: map<Key, Ticket>, next: Ticket, k: Key, a: A)
    requires Tracks(q, tails, next)
    ensures Tracks(Pushed(q, k, Job(next, a)), tails[k := next], next + 1)
  {
    var r, t := Pushed(q, k, Job(next, a)), tails[k := next];
    forall k' | k' in r
      ensures ChainFits(r[k'], t[k'], next + 1)
    {
      if k' == k {
        if k in q {
          ChainFitsPush(q[k], tails[k], next, a);
        } else {
          ChainFitsPush([], 0, next, a);
        }
      } else {
        assert Pending(r, k') == Pending(q, k');
        ChainFitsLater(q[k'], tails[k'], next, next + 1);
      }
    }
  }

  /** Retiring a head keeps the tails in step when the key's entry is
      dropped exactly when the chain drains. */
  lemma PopKeepsTracks<A>(q: Chains<A>, tails: map<Key, Ticket>, next: Ticket, k: Key)
    requires Tracks(q, tails, next) && k in q
    ensures Tracks(Popped(q, k), if |q[k]| == 1 then tails - {k} else tails, next)
  {
    var r := Popped(q, k);
    assert ChainFits(q[k], tails[k], next);
    if |q[k]| == 1 {
      assert r == q - {k};
      assert Tracks(r, tails - {k}, next);
    } else {
      assert r == q[k := q[k][1..]];
      ChainFitsPop(q[k], tails[k], next);
      assert Tracks(r, tails, next);
    }
  }

  /** The cleanup after `settledTicket` settles: the key's tail entry goes
      only if the stored tail is still that action. */
  function Untracked(tails: map<Key, Ticket>, k: Key, settledTicket: Ticket): (r: map<Key, Ticket>)
    requires k in tails
    ensures k in r <==> tails[k] != settledTicket
    ensures r.Keys <= tails.Keys && tails.Keys - {k} <= r.Keys
    ensures forall k' :: k' in r ==> r[k'] == tails[k']
  {
    if tails[k] == settledTicket then tails - {k} else tails
  }

  /** Retiring the head of `k` with the source's cleanup test keeps the
      tails in step: the entry goes exactly when the chain drains. */
  lemma RetireKeepsTracks<A>(q: Chains<A>, tails: map<Key, Ticket>, next: Ticket, k: Key)
    requires Tracks(q, tails, next) && k in q
    ensures Untracked(tails, k, q[k][0].ticket) == if |q[k]| == 1 then tails - {k} else tails
    ensures Tracks(Popped(q, k), Untracked(tails, k, q[k][0].ticket), next)
  {
    TailIsHeadIffLast(q, tails, next, k);
    PopKeepsTracks(q, tails, next, k);
  }

  /** What can happen to the chains: an enqueue, or the head of one key's
      chain running to completion. A run of a key with no work does nothing. */
  datatype Event<A> = Submit(key: Key, job: Job<A>) | Run(key: Key)

  function Apply<A>(q: Chains<A>, e: Event<A>): Chains<A>
  {
    match e
    case Submit(k, j) => Pushed(q, k, j)
    case Run(k) => if |Pending(q, k)| == 0 then q else Popped(q, k)
  }

  function Replay<A>(q: Chains<A>, trace: seq<Event<A>>): Chains<A>
    decreases |trace|
  {
    if |trace| == 0 then q else Replay(Apply(q, trace[0]), trace[1..])
  }

  /** The action of `k` that event `e` runs, if any. */
  function Started<A>(q: Chains<A>, e: Event<A>, k: Key): seq<Job<A>>
  {
    if e.Run? && e.key == k && |Pending(q, k)| > 0 then [Pending(q, k)[0]] else []
  }

  /** The actions of `k` run by `trace`, in the order they ran. */
  function Ran<A>(q: Chains<A>, trace: seq<Event<A>>, k: Key): seq<Job<A>>
    decreases |trace|
  {
    if |trace| == 0 then [] else Started(q, trace[0], k) + Ran(Apply(q, trace[0]), trace[1..], k)
  }

  /** The action of `k` that event `e` enqueues, if any. */
  function Enqueued<A>(e: Event<A>, k: Key): seq<Job<A>>
  {
    if e.Submit? && e.key == k then [e.job] else []
  }

  /** The actions of `k` enqueued by `trace`, in submission order. */
  function Submitted<A>(trace: seq<Event<A>>, k: Key): seq<Job<A>>
  {
    if |trace| == 0 then [] else Enqueued(trace[0], k) + Submitted(trace[1..], k)
  }

  /** One event: what it runs of `k`, then what `k` still has pending, is
      what `k` had pending, then what the event enqueues for `k`. */
  lemma EventKeepsOrder<A>(q: Chains<A>, e: Event<A>, k: Key)
    ensures Started(q, e, k) + Pending(Apply(q, e), k) == Pending(q, k) + Enqueued(e, k)
  {
    if e.Run? && e.key == k && |Pending(q, k)| > 0 {
      assert Pending(q, k) == [Pending(q, k)[0]] + Pending(q, k)[1..];
    }
  }

  /** Per-key FIFO, whatever the interleaving of keys: the actions of `k`
      that have run, followed by those still pending, are exactly those that
      were pending at the start followed by those enqueued since, in
      submission order. Nothing is lost, duplicated or reordered, and events
      of other keys play no part. */
  lemma {:induction false} RunsInSubmissionOrder<A>(q: Chains<A>, trace: seq<Event<A>>, k: Key)
    ensures Ran(q, trace, k) + Pending(Replay(q, trace), k) == Pending(q, k) + Submitted(trace, k)
    decreases |trace|
  {
    if |trace| > 0 {
      var e, rest := trace[0], trace[1..];
      var q' := Apply(q, e);
      RunsInSubmissionOrder(q', rest, k);
      EventKeepsOrder(q, e, k);
      assert Ran(q, trace, k) == Started(q, e, k) + Ran(q', rest, k);
      assert Replay(q, trace) == Replay(q', rest);
      assert Submitted(trace, k) == Enqueued(e, k) + Submitted(rest, k);
      var started, ran, left := Started(q, e, k), Ran(q', rest, k), Pending(Replay(q', rest), k);
      var had, now, added, later := Pending(q, k), Pending(q', k), Enqueued(e, k), Submitted(rest, k);
      Regroup(started, ran, left, had, now, added, later);
    }
  }

  lemma Regroup<T>(started: seq<T>, ran: seq<T>, left: seq<T>, had: seq<T>, now: seq<T>, added: seq<T>, later: seq<T>)
    requires ran + left == now + later && started + now == had + added
    ensures (started + ran) + left == had + (added + later)
  {
    calc {
      (started + ran) + left;
      started + (ran + left);
      started + (now + later);
      (started + now) + later;
      (had + added) + later;
      had + (added + later);
    }
  }

  /** The drain that `close` waits for: if nothing is enqueued for `k` any
      more and the action that was `k`'s tail has run, every action of `k`
      has run and `k` has no pending work. */
  lemma {:induction false} DrainedOnceTailRan<A>(q: Chains<A>, trace: seq<Event<A>>, k: Key, i: nat)
    requires |Pending(q, k)| > 0 && Increasing(Pending(q, k))
    requires Submitted(trace, k) == []
    requires i < |Ran(q, trace, k)| && Ran(q, trace, k)[i].ticket == Pending(q, k)[|Pending(q, k)| - 1].ticket
    ensures Ran(q, trace, k) == Pending(q, k)
    ensures Pending(Replay(q, trace), k) == []
  {
    RunsInSubmissionOrder(q, trace, k);
    var p, ran := Pending(q, k), Ran(q, trace, k);
    assert ran + Pending(Replay(q, trace), k) == p;
    assert ran == p[..|ran|];
    if i < |p| - 1 {
      IncreasingOrders(p, i, |p| - 1);
    }
  }
}
