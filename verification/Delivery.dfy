/** Who holds which job: the accounting that makes every delivery the only one. */
module Delivery {
  import opened Jobs
  import opened DispatcherCore
  import opened Protocol

  /** The places a job can be in. */
  datatype Places = Places(
    queue: set<nat>, hand: set<nat>, buffer: seq<nat>, fetched: set<nat>, running: set<nat>, pending: set<nat>,
    handDone: set<nat>, settling: set<nat>, crediting: set<nat>)
  {
    /** Jobs no result was delivered to, once per place that holds one. */
    function Open(): multiset<nat> {
      multiset(queue) + multiset(hand) + multiset(buffer) + multiset(fetched) + multiset(running) + multiset(pending)
    }

    /** Delivered jobs whose inflight.Done is still to come. */
    function Done(): multiset<nat> {
      multiset(handDone) + multiset(settling) + multiset(crediting)
    }
  }

  function PlacesOf(s: State): Places {
    Places(
      s.core.queue,
      if s.native.Settling? then {} else HeldJobs(s.native),
      s.cdp.buffer, s.pool.fetched, s.pool.running,
      if s.stopper.Cancelling? || s.stopper.Crediting? then s.stopper.pending else {},
      if s.native.Settling? then {s.native.job} else {},
      s.pool.settling,
      if s.stopper.Crediting? then {s.stopper.job} else {})
  }

  /** Every job below |chans| is either in one hand, with its channel fresh, or
      delivered exactly once; inflight counts the jobs still in some hand. */
  ghost predicate Ledger(open: multiset<nat>, done: multiset<nat>, inflight: int, chans: seq<Chan>) {
    && inflight == |open| + |done|
    && (forall t :: open[t] + done[t] <= 1)
    && (forall t :: t in open || t in done ==> t < |chans|)
    && (forall t: nat :: t < |chans| ==>
          if t in open then chans[t] == FRESH_CHAN
          else Settled(chans[t]) && chans[t].sent[0] != Rejected)
  }

  ghost predicate Balanced(p: Places, inflight: int, chans: seq<Chan>) {
    Ledger(p.Open(), p.Done(), inflight, chans)
  }

  ghost predicate Accounted(s: State) {
    |s.chans| == |s.core.jobs| && Balanced(PlacesOf(s), s.core.inflight, s.chans)
  }

  ghost predicate RefusalsAccounted(s: State) {
    && (forall k <- s.rejecting :: k < |s.refused|)
    && (forall k: nat :: k < |s.refused| ==>
          if k in s.rejecting then s.refused[k] == FRESH_CHAN
          else Settled(s.refused[k]) && s.refused[k].sent == [Rejected])
  }

  lemma BalancedRange(p: Places, inflight: int, chans: seq<Chan>)
    requires Balanced(p, inflight, chans)
    ensures forall t | t in p.queue || t in p.hand || t in p.buffer || t in p.fetched || t in p.running
                       || t in p.pending || t in p.handDone || t in p.settling || t in p.crediting :: t < |chans|
  {
    forall t | t in p.queue || t in p.hand || t in p.buffer || t in p.fetched || t in p.running
               || t in p.pending || t in p.handDone || t in p.settling || t in p.crediting
      ensures t < |chans|
    {
      assert t in p.Open() || t in p.Done();
    }
  }

  lemma AccountedWellFormed(s: State)
    requires Accounted(s) && RefusalsAccounted(s)
    ensures WellFormed(s)
  {
    BalancedRange(PlacesOf(s), s.core.inflight, s.chans);
    var p := PlacesOf(s);
    assert forall t <- HeldJobs(s.native) :: t in p.hand || t in p.handDone;
    assert s.stopper.Crediting? ==> s.stopper.job in p.crediting;
  }

  /** A job is delivered by the only holder it has. */
  lemma LedgerDeliver(open: multiset<nat>, done: multiset<nat>, inflight: int, chans: seq<Chan>, t: nat, st: Status)
    requires Ledger(open + multiset{t}, done, inflight, chans) && t < |chans| && st != Rejected
    ensures Ledger(open, done + multiset{t}, inflight, chans[t := Deliver(chans[t], st)])
  {
    forall u ensures open[u] + (done + multiset{t})[u] <= 1 {
      assert (open + multiset{t})[u] + done[u] <= 1;
    }
    assert (open + multiset{t})[t] + done[t] <= 1;
    forall u | u in open ensures u < |chans| && u != t {
      assert u in open + multiset{t};
    }
    var chans' := chans[t := Deliver(chans[t], st)];
    forall u: nat | u < |chans'|
      ensures if u in open then chans'[u] == FRESH_CHAN else Settled(chans'[u]) && chans'[u].sent[0] != Rejected
    {
      assert u in open + multiset{t} <==> u == t || u in open;
    }
  }

  /** The holder of a delivered job reports it done. */
  lemma LedgerCredit(open: multiset<nat>, done: multiset<nat>, inflight: int, chans: seq<Chan>, t: nat)
    requires Ledger(open, done + multiset{t}, inflight, chans)
    ensures Ledger(open, done, inflight - 1, chans)
  {
    forall u ensures open[u] + done[u] <= 1 {
      assert open[u] + (done + multiset{t})[u] <= 1;
    }
    assert forall u :: u in done ==> u in done + multiset{t};
  }

  /** A new job is accepted. */
  lemma LedgerAccept(open: multiset<nat>, done: multiset<nat>, inflight: int, chans: seq<Chan>)
    requires Ledger(open, done, inflight, chans)
    ensures Ledger(open + multiset{|chans|}, done, inflight + 1, chans + [FRESH_CHAN])
  {
    var t := |chans|;
    forall u ensures (open + multiset{t})[u] + done[u] <= 1 {
      assert open[u] + done[u] <= 1;
      assert t !in open && t !in done;
    }
  }

  // ----- a job changes hands ------------------------------------------------------

  lemma SetPlus(a: set<nat>, t: nat)
    ensures t in a ==> multiset(a) == multiset(a - {t}) + multiset{t}
    ensures t !in a ==> multiset(a + {t}) == multiset(a) + multiset{t}
  {
  }

  lemma SeqHead(b: seq<nat>)
    requires b != []
    ensures multiset(b) == multiset{b[0]} + multiset(b[1..])
  {
    assert b == [b[0]] + b[1..];
  }

  lemma Accept(p: Places, inflight: int, chans: seq<Chan>)
    requires Balanced(p, inflight, chans)
    ensures Balanced(p.(queue := p.queue + {|chans|}), inflight + 1, chans + [FRESH_CHAN])
  {
    BalancedRange(p, inflight, chans);
    var p' := p.(queue := p.queue + {|chans|});
    SetPlus(p.queue, |chans|);
    assert p'.Open() == p.Open() + multiset{|chans|};
    LedgerAccept(p.Open(), p.Done(), inflight, chans);
  }

  lemma QueueToHand(p: Places, t: nat)
    requires t in p.queue && p.hand == {}
    ensures p.(queue := p.queue - {t}, hand := {t}).Open() == p.Open()
  {
    SetPlus(p.queue, t);
  }

  lemma HandToBuffer(p: Places, t: nat)
    requires p.hand == {t}
    ensures p.(hand := {}, buffer := p.buffer + [t]).Open() == p.Open()
  {
  }

  lemma BufferToFetched(p: Places, inflight: int, chans: seq<Chan>)
    requires Balanced(p, inflight, chans) && p.buffer != []
    ensures p.buffer[0] !in p.fetched
    ensures p.(buffer := p.buffer[1..], fetched := p.fetched + {p.buffer[0]}).Open() == p.Open()
  {
    var t := p.buffer[0];
    SeqHead(p.buffer);
    assert p.Open()[t] + p.Done()[t] <= 1;
    SetPlus(p.fetched, t);
  }

  lemma FetchedToRunning(p: Places, inflight: int, chans: seq<Chan>, t: nat)
    requires Balanced(p, inflight, chans) && t in p.fetched
    ensures t !in p.running
    ensures p.(fetched := p.fetched - {t}, running := p.running + {t}).Open() == p.Open()
  {
    assert p.Open()[t] + p.Done()[t] <= 1;
    SetPlus(p.fetched, t);
    SetPlus(p.running, t);
  }

  lemma HandDelivers(p: Places, inflight: int, chans: seq<Chan>, t: nat, st: Status)
    requires Balanced(p, inflight, chans) && p.hand == {t} && p.handDone == {} && t < |chans| && st != Rejected
    ensures Balanced(p.(hand := {}, handDone := {t}), inflight, chans[t := Deliver(chans[t], st)])
  {
    var p' := p.(hand := {}, handDone := {t});
    assert p.Open() == p'.Open() + multiset{t};
    assert p'.Done() == p.Done() + multiset{t};
    LedgerDeliver(p'.Open(), p.Done(), inflight, chans, t, st);
  }

  lemma FetchedDelivers(p: Places, inflight: int, chans: seq<Chan>, t: nat, st: Status)
    requires Balanced(p, inflight, chans) && t in p.fetched && t < |chans| && st != Rejected
    ensures t !in p.settling
    ensures Balanced(p.(fetched := p.fetched - {t}, settling := p.settling + {t}), inflight, chans[t := Deliver(chans[t], st)])
  {
    var p' := p.(fetched := p.fetched - {t}, settling := p.settling + {t});
    assert p.Open()[t] + p.Done()[t] <= 1;
    SetPlus(p.fetched, t);
    SetPlus(p.settling, t);
    assert p.Open() == p'.Open() + multiset{t};
    assert p'.Done() == p.Done() + multiset{t};
    LedgerDeliver(p'.Open(), p.Done(), inflight, chans, t, st);
  }

  lemma RunningDelivers(p: Places, inflight: int, chans: seq<Chan>, t: nat, st: Status)
    requires Balanced(p, inflight, chans) && t in p.running && t < |chans| && st != Rejected
    ensures t !in p.settling
    ensures Balanced(p.(running := p.running - {t}, settling := p.settling + {t}), inflight, chans[t := Deliver(chans[t], st)])
  {
    var p' := p.(running := p.running - {t}, settling := p.settling + {t});
    assert p.Open()[t] + p.Done()[t] <= 1;
    SetPlus(p.running, t);
    SetPlus(p.settling, t);
    assert p.Open() == p'.Open() + multiset{t};
    assert p'.Done() == p.Done() + multiset{t};
    LedgerDeliver(p'.Open(), p.Done(), inflight, chans, t, st);
  }

  lemma PendingDelivers(p: Places, inflight: int, chans: seq<Chan>, t: nat, st: Status)
    requires Balanced(p, inflight, chans) && t in p.pending && p.crediting == {} && t < |chans| && st != Rejected
    ensures Balanced(p.(pending := p.pending - {t}, crediting := {t}), inflight, chans[t := Deliver(chans[t], st)])
  {
    var p' := p.(pending := p.pending - {t}, crediting := {t});
    SetPlus(p.pending, t);
    assert p.Open() == p'.Open() + multiset{t};
    assert p'.Done() == p.Done() + multiset{t};
    LedgerDeliver(p'.Open(), p.Done(), inflight, chans, t, st);
  }

  lemma Credited(p: Places, p': Places, inflight: int, chans: seq<Chan>, t: nat)
    requires Balanced(p, inflight, chans)
    requires
      || (p.handDone == {t} && p' == p.(handDone := {}))
      || (t in p.settling && p' == p.(settling := p.settling - {t}))
      || (p.crediting == {t} && p' == p.(crediting := {}))
    ensures Balanced(p', inflight - 1, chans)
  {
    SetPlus(p.settling, t);
    assert p.Done() == p'.Done() + multiset{t};
    LedgerCredit(p'.Open(), p'.Done(), inflight, chans, t);
  }
}
